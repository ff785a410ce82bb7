/**
 * The playbook parser and tip matcher (src/lib/playbook-parser.ts).
 *
 * The playbook is a markdown document given here as its sequence of lines.
 * `## ` lines open a category, `### ` lines open a section, and `- ` or
 * `* ` lines add a tip to the current section. The loop is proved equal to
 * a block-based reference definition (each `### ` line together with the
 * bullets up to the next heading), which is in turn proved equal to a
 * line-by-line description naming each section's category directly.
 */
module PlaybookParser {
  import opened Types
  import opened Text

  // Line classification

  /** What a line of the playbook is, with the trimmed text after its marker. */
  datatype Line = Category(name: string) | Section(name: string) | Bullet(tip: string) | Other
  {
    predicate IsHeading() { Category? || Section? }
  }

  /** The tests of the loop, in their order: `## `, then `### `, then `- ` or `* `. */
  function Classify(line: string): Line
  {
    if StartsWith(line, "## ") then Category(Trim(line[3..]))
    else if StartsWith(line, "### ") then Section(Trim(line[4..]))
    else if StartsWith(line, "- ") || StartsWith(line, "* ") then Bullet(Trim(line[2..]))
    else Other
  }

  /** The classified lines of a document. */
  function Classified(lines: seq<string>): (ls: seq<Line>)
    ensures |ls| == |lines|
  {
    if lines == [] then [] else Classified(lines[..|lines| - 1]) + [Classify(lines[|lines| - 1])]
  }

  /** The classified document holds each line's classification at its index. */
  lemma {:induction false} ClassifiedAt(lines: seq<string>, i: nat)
    requires i < |lines|
    ensures Classified(lines)[i] == Classify(lines[i])
  {
    if i < |lines| - 1 {
      ClassifiedAt(lines[..|lines| - 1], i);
    }
  }

  /** The tip a line contributes: a bullet whose trimmed text is not empty. */
  function LineTip(l: Line): seq<string>
  {
    if l.Bullet? && l.tip != "" then [l.tip] else []
  }

  // Reference definition

  /** The first heading at or after `i`, or the end of the document. */
  function NextHeading(ls: seq<Line>, i: nat): (r: nat)
    requires i <= |ls|
    ensures i <= r <= |ls|
    ensures r < |ls| ==> ls[r].IsHeading()
    ensures forall k :: i <= k < r ==> !ls[k].IsHeading()
    decreases |ls| - i
  {
    if i == |ls| || ls[i].IsHeading() then i else NextHeading(ls, i + 1)
  }

  /** The tips of the lines in [i, j), in order. */
  function BulletTips(ls: seq<Line>, i: nat, j: nat): seq<string>
    requires i <= j <= |ls|
    decreases j - i
  {
    if i == j then [] else LineTip(ls[i]) + BulletTips(ls, i + 1, j)
  }

  /** A section is kept only when it has a title and at least one tip. */
  function Emit(title: string, category: string, tips: seq<string>): (r: seq<PlaybookSection>)
    ensures r != [] <==> title != "" && |tips| > 0
    ensures r != [] ==> r == [PlaybookSection(title, category, tips)]
  {
    if title != "" && |tips| > 0 then [PlaybookSection(title, category, tips)] else []
  }

  /** The sections of the document from line `i` on, `category` being the one in effect:
      a `## ` line changes the category, a `### ` line yields its section together with
      the tips up to the next heading, any other line yields nothing by itself. */
  function SectionsFrom(ls: seq<Line>, i: nat, category: string): seq<PlaybookSection>
    requires i <= |ls|
    decreases |ls| - i
  {
    if i == |ls| then []
    else match ls[i]
      case Category(name) => SectionsFrom(ls, i + 1, name)
      case Section(title) =>
        var next := NextHeading(ls, i + 1);
        Emit(title, category, BulletTips(ls, i + 1, next)) + SectionsFrom(ls, next, category)
      case _ => SectionsFrom(ls, i + 1, category)
  }

  /** Lines before the next heading contribute no section. */
  lemma {:induction false} SkipToHeading(ls: seq<Line>, i: nat, category: string)
    requires i <= |ls|
    ensures SectionsFrom(ls, i, category) == SectionsFrom(ls, NextHeading(ls, i), category)
    decreases |ls| - i
  {
    if i < |ls| && !ls[i].IsHeading() {
      SkipToHeading(ls, i + 1, category);
    }
  }

  /** The loop's state accounts for the whole document: what was saved, the
      section being collected with the tips still ahead of it, and the rest. */
  ghost predicate Accounts(ls: seq<Line>, i: nat, sections: seq<PlaybookSection>,
                           section: string, category: string, tips: seq<string>,
                           whole: seq<PlaybookSection>)
    requires i <= |ls|
  {
    var next := NextHeading(ls, i);
    sections + Emit(section, category, tips + BulletTips(ls, i, next))
    + SectionsFrom(ls, next, category)
    == whole
  }

  /** A `## ` line saves the open section, starts a category and clears the section. */
  lemma CategoryStep(ls: seq<Line>, i: nat, sections: seq<PlaybookSection>,
                     section: string, category: string, tips: seq<string>,
                     whole: seq<PlaybookSection>, saved: seq<PlaybookSection>, name: string)
    requires i < |ls| && ls[i] == Category(name)
    requires Accounts(ls, i, sections, section, category, tips, whole)
    requires saved == sections + Emit(section, category, tips)
    ensures Accounts(ls, i + 1, saved, "", name, [], whole)
  {
    assert tips + BulletTips(ls, i, i) == tips;
    SkipToHeading(ls, i + 1, name);
  }

  /** A `### ` line saves the open section and opens a new one with no tips. */
  lemma SectionStep(ls: seq<Line>, i: nat, sections: seq<PlaybookSection>,
                    section: string, category: string, tips: seq<string>,
                    whole: seq<PlaybookSection>, saved: seq<PlaybookSection>, title: string)
    requires i < |ls| && ls[i] == Section(title)
    requires Accounts(ls, i, sections, section, category, tips, whole)
    requires saved == sections + Emit(section, category, tips)
    ensures Accounts(ls, i + 1, saved, title, category, [], whole)
  {
    var next := NextHeading(ls, i + 1);
    var rest := BulletTips(ls, i + 1, next);
    var head := Emit(title, category, rest);
    var tail := SectionsFrom(ls, next, category);
    var closed := Emit(section, category, tips);
    calc {
      saved + Emit(title, category, [] + rest) + tail;
      == { assert [] + rest == rest; }
      sections + closed + head + tail;
      == { ConcatAssoc(sections + closed, head, tail); }
      sections + closed + (head + tail);
      == { SectionUnfold(ls, i, category); }
      sections + closed + SectionsFrom(ls, i, category);
      == { HeadingHere(ls, i, tips); }
      sections + Emit(section, category, tips + BulletTips(ls, i, NextHeading(ls, i)))
        + SectionsFrom(ls, NextHeading(ls, i), category);
      == whole;
    }
  }

  lemma ConcatAssoc<T>(a: seq<T>, b: seq<T>, c: seq<T>)
    ensures a + b + c == a + (b + c)
  {
  }

  /** At a heading, the open section has no tips ahead of it. */
  lemma HeadingHere(ls: seq<Line>, i: nat, tips: seq<string>)
    requires i < |ls| && ls[i].IsHeading()
    ensures NextHeading(ls, i) == i
    ensures tips + BulletTips(ls, i, i) == tips
  {
    assert tips + [] == tips;
  }

  /** A `### ` line yields its section with the tips up to the next heading. */
  lemma SectionUnfold(ls: seq<Line>, i: nat, category: string)
    requires i < |ls| && ls[i].Section?
    ensures SectionsFrom(ls, i, category)
      == Emit(ls[i].name, category, BulletTips(ls, i + 1, NextHeading(ls, i + 1)))
         + SectionsFrom(ls, NextHeading(ls, i + 1), category)
  {
  }

  /** Any other line adds its tip, if it has one, to the open section. */
  lemma PlainStep(ls: seq<Line>, i: nat, sections: seq<PlaybookSection>,
                  section: string, category: string, tips: seq<string>,
                  whole: seq<PlaybookSection>, tips': seq<string>)
    requires i < |ls| && !ls[i].IsHeading()
    requires Accounts(ls, i, sections, section, category, tips, whole)
    requires tips' == tips + LineTip(ls[i])
    ensures Accounts(ls, i + 1, sections, section, category, tips', whole)
  {
    var rest := BulletTips(ls, i + 1, NextHeading(ls, i + 1));
    assert tips + LineTip(ls[i]) + rest == tips + (LineTip(ls[i]) + rest);
  }

  /** Before the first line nothing is saved, open or collected. */
  lemma StartAccounts(ls: seq<Line>)
    ensures Accounts(ls, 0, [], "", "", [], SectionsFrom(ls, 0, ""))
  {
    SkipToHeading(ls, 0, "");
  }

  /** After the last line, saving the open section completes the document. */
  lemma FinishAccounts(ls: seq<Line>, sections: seq<PlaybookSection>,
                       section: string, category: string, tips: seq<string>,
                       whole: seq<PlaybookSection>, saved: seq<PlaybookSection>)
    requires Accounts(ls, |ls|, sections, section, category, tips, whole)
    requires saved == sections + Emit(section, category, tips)
    ensures saved == whole
  {
    assert tips + [] == tips;
  }

  /** The save the loop performs before a heading and at the end: the open section
      is appended when it has a title and at least one tip. */
  method SaveSection(sections: seq<PlaybookSection>, section: string, category: string, tips: seq<string>)
    returns (saved: seq<PlaybookSection>)
    ensures saved == sections + Emit(section, category, tips)
  {
    saved := sections;
    if section != "" && |tips| > 0 {
      saved := saved + [PlaybookSection(section, category, tips)];
    }
  }

  /** `replace(/^[-*] /, '')`: drops a leading "- " or "* ", if there is one. */
  function StripBulletMarker(s: string): string
  {
    if |s| >= 2 && (s[0] == '-' || s[0] == '*') && s[1] == ' ' then s[2..] else s
  }

  /** Line `i` as the loop's tests and `replace` calls read it: the marker is
      removed by replacing its first occurrence, or by the anchored bullet
      pattern, and the rest is trimmed. */
  method ClassifyLine(lines: seq<string>, i: nat) returns (line: Line)
    requires i < |lines|
    ensures line == Classified(lines)[i]
  {
    var text := lines[i];
    if StartsWith(text, "## ") {
      ReplaceAtStart(text, "## ");
      line := Category(Trim(ReplaceFirst(text, "## ", "")));
    } else if StartsWith(text, "### ") {
      ReplaceAtStart(text, "### ");
      line := Section(Trim(ReplaceFirst(text, "### ", "")));
    } else if StartsWith(text, "- ") || StartsWith(text, "* ") {
      assert text[0] == text[..2][0] && text[1] == text[..2][1];
      line := Bullet(Trim(StripBulletMarker(text)));
    } else {
      line := Other;
    }
    ClassifiedAt(lines, i);
  }

  /** `parsePlaybook` without the file read: the line loop and the final save. */
  method ParsePlaybook(lines: seq<string>) returns (sections: seq<PlaybookSection>)
    ensures sections == SectionsFrom(Classified(lines), 0, "")
  {
    sections := [];
    var currentCategory := "";
    var currentSection := "";
    var currentTips: seq<string> := [];
    ghost var ls := Classified(lines);
    ghost var whole := SectionsFrom(ls, 0, "");
    StartAccounts(ls);
    for i := 0 to |lines|
      invariant Accounts(ls, i, sections, currentSection, currentCategory, currentTips, whole)
    {
      var line := ClassifyLine(lines, i);
      match line
      case Category(name) =>
        var saved := SaveSection(sections, currentSection, currentCategory, currentTips);
        CategoryStep(ls, i, sections, currentSection, currentCategory, currentTips, whole, saved, name);
        sections := saved;
        currentCategory := name;
        currentSection := "";
        currentTips := [];
      case Section(title) =>
        var saved := SaveSection(sections, currentSection, currentCategory, currentTips);
        SectionStep(ls, i, sections, currentSection, currentCategory, currentTips, whole, saved, title);
        sections := saved;
        currentSection := title;
        currentTips := [];
      case Bullet(tip) =>
        ghost var before := currentTips;
        if tip != "" {
          currentTips := currentTips + [tip];
        }
        PlainStep(ls, i, sections, currentSection, currentCategory, before, whole, currentTips);
      case Other =>
        assert currentTips + LineTip(ls[i]) == currentTips;
        PlainStep(ls, i, sections, currentSection, currentCategory, currentTips, whole, currentTips);
    }
    var saved := SaveSection(sections, currentSection, currentCategory, currentTips);
    FinishAccounts(ls, sections, currentSection, currentCategory, currentTips, whole, saved);
    sections := saved;
  }

  // Properties of the parsed document

  /** The texts a classified line carries are already trimmed. */
  predicate TrimmedLine(l: Line)
  {
    match l
    case Category(name) => Trim(name) == name
    case Section(name) => Trim(name) == name
    case Bullet(tip) => Trim(tip) == tip
    case Other => true
  }

  lemma ClassifyTrimmed(line: string)
    ensures TrimmedLine(Classify(line))
  {
    if StartsWith(line, "## ") {
      TrimIdempotent(line[3..]);
    } else if StartsWith(line, "### ") {
      TrimIdempotent(line[4..]);
    } else if StartsWith(line, "- ") || StartsWith(line, "* ") {
      TrimIdempotent(line[2..]);
    }
  }

  lemma ClassifiedTrimmed(lines: seq<string>)
    ensures forall k :: 0 <= k < |lines| ==> TrimmedLine(Classified(lines)[k])
  {
    forall k | 0 <= k < |lines|
      ensures TrimmedLine(Classified(lines)[k])
    {
      ClassifiedAt(lines, k);
      ClassifyTrimmed(lines[k]);
    }
  }

  /** A tip is collected from [i, j) exactly when some bullet line there carries it and it is not empty. */
  lemma {:induction false} BulletTipsMembers(ls: seq<Line>, i: nat, j: nat, t: string)
    requires i <= j <= |ls|
    ensures t in BulletTips(ls, i, j) <==> t != "" && exists k :: i <= k < j && ls[k] == Bullet(t)
    decreases j - i
  {
    if i < j {
      BulletTipsMembers(ls, i + 1, j, t);
      var rest := BulletTips(ls, i + 1, j);
      assert BulletTips(ls, i, j) == LineTip(ls[i]) + rest;
      if ls[i] == Bullet(t) && t != "" {
        assert t in LineTip(ls[i]);
      } else {
        assert t !in LineTip(ls[i]);
        if t != "" && exists k :: i <= k < j && ls[k] == Bullet(t) {
          var k :| i <= k < j && ls[k] == Bullet(t);
          assert i + 1 <= k;
        }
      }
    }
  }

  /** Collected tips are non-empty and trimmed. */
  lemma {:induction false} BulletTipsTrimmed(ls: seq<Line>, i: nat, j: nat)
    requires i <= j <= |ls|
    requires forall k :: i <= k < j ==> TrimmedLine(ls[k])
    ensures forall t :: t in BulletTips(ls, i, j) ==> t != "" && Trim(t) == t
    decreases j - i
  {
    if i < j {
      BulletTipsTrimmed(ls, i + 1, j);
    }
  }

  /** What every saved section looks like: a non-empty trimmed title and at
      least one tip, each non-empty and trimmed. */
  predicate WellFormed(s: PlaybookSection)
  {
    && s.title != "" && Trim(s.title) == s.title
    && |s.tips| > 0
    && forall t :: t in s.tips ==> t != "" && Trim(t) == t
  }

  lemma {:induction false} SectionsWellFormed(ls: seq<Line>, i: nat, category: string)
    requires i <= |ls|
    requires forall k :: 0 <= k < |ls| ==> TrimmedLine(ls[k])
    ensures forall s :: s in SectionsFrom(ls, i, category) ==> WellFormed(s)
    decreases |ls| - i
  {
    if i < |ls| {
      match ls[i]
      case Category(name) =>
        SectionsWellFormed(ls, i + 1, name);
      case Section(title) =>
        var next := NextHeading(ls, i + 1);
        BulletTipsTrimmed(ls, i + 1, next);
        SectionsWellFormed(ls, next, category);
      case _ =>
        SectionsWellFormed(ls, i + 1, category);
    }
  }

  /** Every section of a parsed document is well formed. */
  lemma ParsedWellFormed(lines: seq<string>)
    ensures forall s :: s in SectionsFrom(Classified(lines), 0, "") ==> WellFormed(s)
  {
    ClassifiedTrimmed(lines);
    SectionsWellFormed(Classified(lines), 0, "");
  }

  // A line-by-line account of the sections

  /** The name of the last `## ` line before line `i`, or "" when there is none. */
  function CategoryAt(ls: seq<Line>, i: nat): string
    requires i <= |ls|
  {
    if i == 0 then ""
    else if ls[i - 1].Category? then ls[i - 1].name
    else CategoryAt(ls, i - 1)
  }

  /** The section a line yields: a `### ` line gives its title, the category in
      effect at it, and the tips of the lines up to the next heading. */
  function SectionAt(ls: seq<Line>, k: nat): seq<PlaybookSection>
    requires k < |ls|
  {
    if ls[k].Section? then
      Emit(ls[k].name, CategoryAt(ls, k), BulletTips(ls, k + 1, NextHeading(ls, k + 1)))
    else []
  }

  /** The sections of lines i, i+1, ..., in document order. */
  function SectionsOfLines(ls: seq<Line>, i: nat): seq<PlaybookSection>
    requires i <= |ls|
    decreases |ls| - i
  {
    if i == |ls| then [] else SectionAt(ls, i) + SectionsOfLines(ls, i + 1)
  }

  /** Across lines that are not headings, neither the sections ahead nor the category change. */
  lemma {:induction false} PlainRun(ls: seq<Line>, i: nat)
    requires i <= |ls|
    ensures SectionsOfLines(ls, i) == SectionsOfLines(ls, NextHeading(ls, i))
    ensures CategoryAt(ls, NextHeading(ls, i)) == CategoryAt(ls, i)
    decreases |ls| - i
  {
    if i < |ls| && !ls[i].IsHeading() {
      PlainRun(ls, i + 1);
    }
  }

  /** The block-based definition and the line-by-line account agree. */
  lemma {:induction false} SectionsFromLines(ls: seq<Line>, i: nat)
    requires i <= |ls|
    ensures SectionsFrom(ls, i, CategoryAt(ls, i)) == SectionsOfLines(ls, i)
    decreases |ls| - i
  {
    if i < |ls| {
      var category := CategoryAt(ls, i);
      assert SectionsOfLines(ls, i) == SectionAt(ls, i) + SectionsOfLines(ls, i + 1);
      match ls[i]
      case Category(name) =>
        assert CategoryAt(ls, i + 1) == name;
        assert SectionsFrom(ls, i, category) == SectionsFrom(ls, i + 1, name);
        SectionsFromLines(ls, i + 1);
      case Section(title) =>
        var next := NextHeading(ls, i + 1);
        var tips := BulletTips(ls, i + 1, next);
        assert CategoryAt(ls, i + 1) == category;
        assert SectionAt(ls, i) == Emit(title, category, tips);
        assert SectionsFrom(ls, i, category) == Emit(title, category, tips) + SectionsFrom(ls, next, category);
        PlainRun(ls, i + 1);
        SectionsFromLines(ls, next);
      case _ =>
        assert CategoryAt(ls, i + 1) == category;
        assert SectionsFrom(ls, i, category) == SectionsFrom(ls, i + 1, category);
        SectionsFromLines(ls, i + 1);
    }
  }

  /** The parsed sections are, in document order, the sections of the `### ` lines:
      each with the category of the latest `## ` line before it (or "" if none) and
      the tips up to the next heading, kept when it has a title and a tip. */
  lemma ParsedSections(lines: seq<string>)
    ensures SectionsFrom(Classified(lines), 0, "") == SectionsOfLines(Classified(lines), 0)
  {
    SectionsFromLines(Classified(lines), 0);
  }

  // Tip matching

  /** The section titles `getRelevantPractices` can select. */
  datatype Tag =
    | HighRisk | MediumRisk | LowRisk
    | LowDataReadiness | HighDataReadiness | MediumDataReadiness
    | HighImpact | MediumImpact
    | HighEffort | LowMediumEffort
  {
    function Title(): string
    {
      match this
      case HighRisk => "High Risk Ideas"
      case MediumRisk => "Medium Risk Ideas"
      case LowRisk => "Low Risk Ideas"
      case LowDataReadiness => "Low Data Readiness"
      case HighDataReadiness => "High Data Readiness"
      case MediumDataReadiness => "Medium Data Readiness"
      case HighImpact => "High Impact Ideas"
      case MediumImpact => "Medium Impact Ideas"
      case HighEffort => "High Effort Ideas"
      case LowMediumEffort => "Low-Medium Effort Ideas"
    }
  }

  /** The tags chosen from the idea's thresholds, in the order they are pushed:
      one risk tag, one data-readiness tag, an impact tag only from impact 4 on,
      and one effort tag. */
  function RelevantTags(idea: Idea): seq<Tag>
  {
    [RiskTag(idea.risk), DataTag(idea.dataReadiness)] + ImpactTags(idea.impact) + [EffortTag(idea.effort)]
  }

  function RiskTag(risk: int): Tag
  {
    if risk >= 7 then HighRisk else if risk >= 4 then MediumRisk else LowRisk
  }

  function DataTag(dataReadiness: int): Tag
  {
    if dataReadiness < 4 then LowDataReadiness
    else if dataReadiness >= 7 then HighDataReadiness
    else MediumDataReadiness
  }

  function ImpactTags(impact: int): seq<Tag>
  {
    if impact >= 7 then [HighImpact] else if impact >= 4 then [MediumImpact] else []
  }

  function EffortTag(effort: int): Tag
  {
    if effort >= 7 then HighEffort else LowMediumEffort
  }

  /** Which tags are chosen, as thresholds. */
  lemma RelevantTagsChoice(idea: Idea)
    ensures var tags := RelevantTags(idea);
      && |tags| == (if idea.impact >= 4 then 4 else 3)
      && (HighRisk in tags <==> idea.risk >= 7)
      && (MediumRisk in tags <==> 4 <= idea.risk < 7)
      && (LowRisk in tags <==> idea.risk < 4)
      && (LowDataReadiness in tags <==> idea.dataReadiness < 4)
      && (HighDataReadiness in tags <==> idea.dataReadiness >= 7)
      && (MediumDataReadiness in tags <==> 4 <= idea.dataReadiness < 7)
      && (HighImpact in tags <==> idea.impact >= 7)
      && (MediumImpact in tags <==> 4 <= idea.impact < 7)
      && (HighEffort in tags <==> idea.effort >= 7)
      && (LowMediumEffort in tags <==> idea.effort < 7)
  {
  }

  /** `relevantSections.includes(title)`: the title equals one of the tags' titles exactly. */
  predicate Selected(title: string, tags: seq<Tag>)
  {
    tags != [] && (tags[0].Title() == title || Selected(title, tags[1..]))
  }

  /** The tips of the sections whose title `keep` accepts, in section order. */
  function Gather(sections: seq<PlaybookSection>, keep: string -> bool): seq<string>
  {
    if sections == [] then []
    else
      var last := sections[|sections| - 1];
      Gather(sections[..|sections| - 1], keep) + (if keep(last.title) then last.tips else [])
  }

  lemma {:induction false} GatherAppend(a: seq<PlaybookSection>, b: seq<PlaybookSection>, keep: string -> bool)
    ensures Gather(a + b, keep) == Gather(a, keep) + Gather(b, keep)
  {
    if b == [] {
      assert a + b == a;
    } else {
      var init, last := b[..|b| - 1], b[|b| - 1];
      var own := if keep(last.title) then last.tips else [];
      GatherAppend(a, init, keep);
      assert (a + b)[..|a + b| - 1] == a + init;
      assert (a + b)[|a + b| - 1] == last;
      assert Gather(a + b, keep) == Gather(a + init, keep) + own;
      assert Gather(b, keep) == Gather(init, keep) + own;
    }
  }

  lemma {:induction false} GatherMembers(sections: seq<PlaybookSection>, keep: string -> bool, t: string)
    ensures t in Gather(sections, keep)
      <==> exists k :: 0 <= k < |sections| && keep(sections[k].title) && t in sections[k].tips
  {
    if sections != [] {
      var init, last := sections[..|sections| - 1], sections[|sections| - 1];
      var own := if keep(last.title) then last.tips else [];
      GatherMembers(init, keep, t);
      assert Gather(sections, keep) == Gather(init, keep) + own;
      if t in Gather(init, keep) {
        var k :| 0 <= k < |init| && keep(init[k].title) && t in init[k].tips;
        assert sections[k] == init[k];
      }
      forall k | 0 <= k < |sections| && keep(sections[k].title) && t in sections[k].tips
        ensures t in Gather(sections, keep)
      {
        if k < |init| {
          assert init[k] == sections[k];
        }
      }
    }
  }

  /** The tips of the selected sections, in section order. */
  function MatchedTips(sections: seq<PlaybookSection>, tags: seq<Tag>): seq<string>
  {
    Gather(sections, title => Selected(title, tags))
  }

  /** Matching distributes over concatenation: each section contributes its
      tips, all of them and in place, or nothing. */
  lemma MatchedTipsAppend(a: seq<PlaybookSection>, b: seq<PlaybookSection>, tags: seq<Tag>)
    ensures MatchedTips(a + b, tags) == MatchedTips(a, tags) + MatchedTips(b, tags)
  {
    GatherAppend(a, b, title => Selected(title, tags));
  }

  /** A tip is matched exactly when some selected section lists it. */
  lemma MatchedTipsMembers(sections: seq<PlaybookSection>, tags: seq<Tag>, t: string)
    ensures t in MatchedTips(sections, tags)
      <==> exists k :: 0 <= k < |sections| && Selected(sections[k].title, tags) && t in sections[k].tips
  {
    GatherMembers(sections, title => Selected(title, tags), t);
  }

  const PitfallsCategory: string := "Common Pitfalls to Avoid"

  /** `sections.find(s => s.category === category)`, as an index. */
  function FirstWithCategory(sections: seq<PlaybookSection>, category: string): (r: Option<nat>)
    ensures r.None? ==> forall k :: 0 <= k < |sections| ==> sections[k].category != category
    ensures r.Some? ==> r.value < |sections| && sections[r.value].category == category
    ensures r.Some? ==> forall k :: 0 <= k < r.value ==> sections[k].category != category
  {
    if sections == [] then None
    else if sections[0].category == category then Some(0)
    else match FirstWithCategory(sections[1..], category)
      case None => None
      case Some(k) => Some(k + 1)
  }

  /** At most the first three tips of the first pitfalls section; nothing if there is none. */
  function Pitfalls(sections: seq<PlaybookSection>): (r: seq<string>)
    ensures |r| <= 3
    ensures FirstWithCategory(sections, PitfallsCategory).None? ==> r == []
    ensures FirstWithCategory(sections, PitfallsCategory).Some? ==>
      var tips := sections[FirstWithCategory(sections, PitfallsCategory).value].tips;
      |r| == (if |tips| < 3 then |tips| else 3) && r == tips[..|r|]
  {
    match FirstWithCategory(sections, PitfallsCategory)
    case None => []
    case Some(k) => var tips := sections[k].tips; tips[..if |tips| < 3 then |tips| else 3]
  }

  /** `getRelevantPractices` over given sections: matched tips, then pitfalls. */
  function RelevantPractices(sections: seq<PlaybookSection>, idea: Idea): seq<string>
  {
    MatchedTips(sections, RelevantTags(idea)) + Pitfalls(sections)
  }

  /** `getRelevantPractices`, with the parsed sections passed in. */
  method GetRelevantPractices(sections: seq<PlaybookSection>, idea: Idea) returns (relevantTips: seq<string>)
    ensures relevantTips == RelevantPractices(sections, idea)
  {
    var relevantSections: seq<Tag> := [];
    if idea.risk >= 7 {
      relevantSections := relevantSections + [HighRisk];
    } else if idea.risk >= 4 {
      relevantSections := relevantSections + [MediumRisk];
    } else {
      relevantSections := relevantSections + [LowRisk];
    }
    assert relevantSections == [RiskTag(idea.risk)];
    if idea.dataReadiness < 4 {
      relevantSections := relevantSections + [LowDataReadiness];
    } else if idea.dataReadiness >= 7 {
      relevantSections := relevantSections + [HighDataReadiness];
    } else {
      relevantSections := relevantSections + [MediumDataReadiness];
    }
    assert relevantSections == [RiskTag(idea.risk), DataTag(idea.dataReadiness)];
    if idea.impact >= 7 {
      relevantSections := relevantSections + [HighImpact];
    } else if idea.impact >= 4 {
      relevantSections := relevantSections + [MediumImpact];
    }
    assert relevantSections == [RiskTag(idea.risk), DataTag(idea.dataReadiness)] + ImpactTags(idea.impact);
    if idea.effort >= 7 {
      relevantSections := relevantSections + [HighEffort];
    } else {
      relevantSections := relevantSections + [LowMediumEffort];
    }
    assert relevantSections == RelevantTags(idea);

    relevantTips := [];
    for i := 0 to |sections|
      invariant relevantTips == MatchedTips(sections[..i], relevantSections)
    {
      assert sections[..i + 1][..i] == sections[..i];
      if Selected(sections[i].title, relevantSections) {
        relevantTips := relevantTips + sections[i].tips;
      }
    }
    assert sections[..|sections|] == sections;

    var generalSection := FirstWithCategory(sections, PitfallsCategory);
    if generalSection.Some? {
      var tips := sections[generalSection.value].tips;
      relevantTips := relevantTips + tips[..if |tips| < 3 then |tips| else 3];
    }
  }

  // Section lookup

  /** `section.category.toLowerCase().includes(category.toLowerCase())`. */
  predicate CategoryMatches(s: PlaybookSection, category: string)
  {
    Contains(ToLower(s.category), ToLower(category))
  }

  /** An absent or empty title matches every section; otherwise a case-insensitive infix test. */
  predicate TitleMatches(s: PlaybookSection, title: Option<string>)
  {
    title.None? || title.value == "" || Contains(ToLower(s.title), ToLower(title.value))
  }

  /** `Array.prototype.filter` on sections: the ones `keep` accepts, in order. */
  function Filter(sections: seq<PlaybookSection>, keep: PlaybookSection -> bool): seq<PlaybookSection>
  {
    if sections == [] then []
    else (if keep(sections[0]) then [sections[0]] else []) + Filter(sections[1..], keep)
  }

  lemma {:induction false} FilterMembers(sections: seq<PlaybookSection>, keep: PlaybookSection -> bool)
    ensures forall s :: s in Filter(sections, keep) <==> s in sections && keep(s)
    ensures multiset(Filter(sections, keep)) <= multiset(sections)
  {
    if sections != [] {
      FilterMembers(sections[1..], keep);
      assert sections == [sections[0]] + sections[1..];
    }
  }

  lemma {:induction false} FilterAppend(a: seq<PlaybookSection>, b: seq<PlaybookSection>, keep: PlaybookSection -> bool)
    ensures Filter(a + b, keep) == Filter(a, keep) + Filter(b, keep)
  {
    if a == [] {
      assert a + b == b;
    } else {
      FilterAppend(a[1..], b, keep);
      assert (a + b)[1..] == a[1..] + b;
      assert (a + b)[0] == a[0];
    }
  }

  /** `getPlaybookSection` over given sections: the matching ones, in order. */
  function GetPlaybookSection(sections: seq<PlaybookSection>, category: string, title: Option<string>)
    : seq<PlaybookSection>
  {
    Filter(sections, s => CategoryMatches(s, category) && TitleMatches(s, title))
  }

  /** The result holds exactly the matching sections, each no more often than in the input. */
  lemma GetPlaybookSectionMembers(sections: seq<PlaybookSection>, category: string, title: Option<string>)
    ensures forall s :: (s in GetPlaybookSection(sections, category, title)
                         <==> s in sections && CategoryMatches(s, category) && TitleMatches(s, title))
    ensures multiset(GetPlaybookSection(sections, category, title)) <= multiset(sections)
  {
    FilterMembers(sections, s => CategoryMatches(s, category) && TitleMatches(s, title));
  }

  /** The filter keeps order: it distributes over concatenation. */
  lemma GetPlaybookSectionAppend(a: seq<PlaybookSection>, b: seq<PlaybookSection>,
                                 category: string, title: Option<string>)
    ensures GetPlaybookSection(a + b, category, title)
      == GetPlaybookSection(a, category, title) + GetPlaybookSection(b, category, title)
  {
    FilterAppend(a, b, s => CategoryMatches(s, category) && TitleMatches(s, title));
  }

  /** The lookup ignores the case of the category asked for. */
  lemma CategoryCaseInsensitive(s: PlaybookSection, category: string)
    ensures CategoryMatches(s, category) == CategoryMatches(s, ToLower(category))
  {
    ToLowerIdempotent(category);
  }
}
