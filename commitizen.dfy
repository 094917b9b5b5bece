/**
 * The commit types of the `.cz.toml` generator and the three queries over them: the
 * emoji-prefixed name of one type, the `|`-separated pattern of some types, and the
 * list of choices offered when a commit message is written.
 */
module Commitizen {
  import opened Wrappers
  import opened Text

  /** One row of `commit_types`. */
  datatype CommitType = CommitType(emoji: string, changeType: string, description: string)

  /*
   * `commit_types`, row for row, with the emoji written as their code points. The list
   * is written down in seven consecutive parts of seven rows each so that facts about it
   * can be established part by part.
   */
  const FirstRows: seq<CommitType> := [
    CommitType("\U{2728}", "feat", "Introduce new features."),
    CommitType("\U{1F41B}", "fix", "Fix a bug."),
    CommitType("\U{1F691}\U{FE0F}", "hotfix", "Hotfix a bug."),
    CommitType("\U{1F4DD}", "docs", "Add or update documentation."),
    CommitType("\U{1F4C4}", "license", "Add or update license."),
    CommitType("\U{1F3A8}", "style", "Improve structure/format of the code."),
    CommitType("\U{1F50A}", "logs", "Add or update logs.")
  ]

  const SecondRows: seq<CommitType> := [
    CommitType("\U{1F507}", "rm_logs", "Remove logs."),
    CommitType("\U{267B}\U{FE0F}", "refactor", "Refactor code."),
    CommitType("\U{2705}", "test", "Add, update, or pass tests."),
    CommitType("\U{1F680}", "deploy", "Deploy stuff."),
    CommitType("\U{1F527}", "config", "Add or update configuration files."),
    CommitType("\U{1F528}", "scripts", "Add or update development scripts."),
    CommitType("\U{1F49A}", "ci_fix", "Fix CI Build.")
  ]

  const ThirdRows: seq<CommitType> := [
    CommitType("\U{1F477}", "ci_update", "Add or update CI build system."),
    CommitType("\U{1F484}", "ui", "Add or update the UI and style files."),
    CommitType("\U{1F516}", "release", "Release / Version tags."),
    CommitType("\U{1F3F7}\U{FE0F}", "types", "Add or update types."),
    CommitType("\U{1F6A8}", "lint", "Fix compiler/linter warnings."),
    CommitType("\U{2795}", "add_dep", "Add a dependency."),
    CommitType("\U{2796}", "rm_dep", "Remove a dependency.")
  ]

  const FourthRows: seq<CommitType> := [
    CommitType("\U{2B07}\U{FE0F}", "downgrade", "Downgrade dependencies."),
    CommitType("\U{2B06}\U{FE0F}", "upgrade", "Upgrade dependencies."),
    CommitType("\U{1F4CC}", "pin", "Pin dependencies to specific versions."),
    CommitType("\U{1F4C8}", "analytics", "Add or update analytics or track code."),
    CommitType("\U{1F310}", "i18n", "Internationalization and localization."),
    CommitType("\U{270F}\U{FE0F}", "typos", "Fix typos."),
    CommitType("\U{1F389}", "init", "Begin a project.")
  ]

  const FifthRows: seq<CommitType> := [
    CommitType("\U{1F6A7}", "wip", "Work in progress."),
    CommitType("\U{23EA}\U{FE0F}", "revert", "Revert changes."),
    CommitType("\U{1F500}", "merge", "Merge branches."),
    CommitType("\U{1F4E6}\U{FE0F}", "compiled", "Add or update compiled files or packages."),
    CommitType("\U{1F47D}\U{FE0F}", "api", "Update code due to external API changes."),
    CommitType("\U{1F69A}", "move", "Move or rename resources (e.g., files, paths, routes)."),
    CommitType("\U{1F4A5}", "breaking", "Introduce breaking changes.")
  ]

  const SixthRows: seq<CommitType> := [
    CommitType("\U{267F}\U{FE0F}", "accessibility", "Improve accessibility."),
    CommitType("\U{1F4A1}", "comments", "Add or update comments in source code."),
    CommitType("\U{1F37B}", "drunk", "Write code drunkenly."),
    CommitType("\U{1F6B8}", "ux", "Improve user experience/usability."),
    CommitType("\U{1F3D7}\U{FE0F}", "architecture", "Make architectural changes."),
    CommitType("\U{1F648}", "gitignore", "Add or update a .gitignore file."),
    CommitType("\U{1F6A9}", "flags", "Add, update, or remove feature flags.")
  ]

  const SeventhRows: seq<CommitType> := [
    CommitType("\U{1F945}", "catch_errors", "Catch errors."),
    CommitType("\U{1F5D1}\U{FE0F}", "deprecate", "Deprecate code that needs to be cleaned up."),
    CommitType("\U{26B0}\U{FE0F}", "rm_dead_code", "Remove dead code."),
    CommitType("\U{1F9D1}\U{200D}\U{1F4BB}", "dev_exp", "Improve developer experience."),
    CommitType("\U{26A1}\U{FE0F}", "performance", "Improve performance."),
    CommitType("\U{1F525}", "rm_code", "Remove code or files."),
    CommitType("\U{1F371}", "assets", "Add or update assets.")
  ]

  /** `commit_types`: the seven parts above, in order. */
  const CommitTypes: seq<CommitType> :=
    FirstRows + SecondRows + ThirdRows + FourthRows + FifthRows + SixthRows + SeventhRows

  /** The change types of a table, in table order. */
  function Types(table: seq<CommitType>): (r: seq<string>)
    ensures |r| == |table|
    ensures forall i :: 0 <= i < |table| ==> r[i] == table[i].changeType
  {
    if |table| == 0 then [] else [table[0].changeType] + Types(table[1..])
  }

  /* ---------------------------------------------------------------------------------- */
  /* get_info_via_type                                                                   */

  /** `f"{emoji} {change_type}".strip()`. */
  function Info(c: CommitType): (r: string)
    ensures |r| <= |c.emoji| + 1 + |c.changeType|
  {
    Strip(c.emoji + " " + c.changeType, IsSpace)
  }

  /** The `KeyError` raised for a change type that no row has. */
  datatype NotFound = NotFound(changeType: string)

  /**
   * `get_info_via_type`: the rows are searched in order and the first one with the
   * change type gives the answer; when no row has it, the search fails.
   */
  method GetInfoViaType(table: seq<CommitType>, changeType: string) returns (r: Result<string, NotFound>)
    ensures r.Failure? <==> changeType !in Types(table)
    ensures r.Failure? ==> r.error == NotFound(changeType)
    ensures r.Success? ==>
              exists i :: && 0 <= i < |table|
                          && table[i].changeType == changeType
                          && (forall j :: 0 <= j < i ==> table[j].changeType != changeType)
                          && r.value == Info(table[i])
  {
    for i := 0 to |table|
      invariant forall j :: 0 <= j < i ==> table[j].changeType != changeType
    {
      if table[i].changeType == changeType {
        return Success(Info(table[i]));
      }
    }
    return Failure(NotFound(changeType));
  }

  /** A row whose emoji does not start, and whose type does not end, with a space gets no stripping. */
  lemma InfoUnstripped(c: CommitType)
    requires Unstripped(c)
    ensures Info(c) == c.emoji + " " + c.changeType
  {
    var s := c.emoji + " " + c.changeType;
    assert s[0] == c.emoji[0] && s[|s| - 1] == c.changeType[|c.changeType| - 1];
    StripUnchanged(s, IsSpace);
  }

  /* ---------------------------------------------------------------------------------- */
  /* get_type_pattern                                                                    */

  /** The change types `get_type_pattern(*args)` keeps: all of them without arguments. */
  function SelectedTypes(table: seq<CommitType>, args: seq<string>): (r: seq<string>)
    ensures |r| <= |table|
    ensures |args| == 0 ==> |r| == |table|
  {
    if |table| == 0 then []
    else
      var keep := |args| == 0 || table[0].changeType in args;
      (if keep then [table[0].changeType] else []) + SelectedTypes(table[1..], args)
  }

  /** `get_type_pattern(*args)`: the kept change types joined with `|`. */
  function GetTypePattern(table: seq<CommitType>, args: seq<string>): string {
    Join("|", SelectedTypes(table, args))
  }

  /** A change type is kept exactly when some row has it and there are no arguments or it is one. */
  lemma {:induction false} SelectedMembership(table: seq<CommitType>, args: seq<string>, t: string)
    ensures t in SelectedTypes(table, args) <==> t in Types(table) && (|args| == 0 || t in args)
    decreases |table|
  {
    if |table| > 0 {
      SelectedMembership(table[1..], args, t);
      assert Types(table) == [table[0].changeType] + Types(table[1..]);
    }
  }

  /** Selection keeps table order: selecting from two tables in a row is selecting from their concatenation. */
  lemma {:induction false} SelectedAppend(first: seq<CommitType>, rest: seq<CommitType>, args: seq<string>)
    ensures SelectedTypes(first + rest, args) == SelectedTypes(first, args) + SelectedTypes(rest, args)
    decreases |first|
  {
    if |first| == 0 {
      assert first + rest == rest;
    } else {
      assert (first + rest)[1..] == first[1..] + rest;
      SelectedAppend(first[1..], rest, args);
    }
  }

  /** Selection from a table given in seven consecutive parts, part by part. */
  lemma SelectedParts(p1: seq<CommitType>, p2: seq<CommitType>, p3: seq<CommitType>, p4: seq<CommitType>,
                      p5: seq<CommitType>, p6: seq<CommitType>, p7: seq<CommitType>, args: seq<string>)
    ensures SelectedTypes(p1 + p2 + p3 + p4 + p5 + p6 + p7, args)
         == SelectedTypes(p1, args) + SelectedTypes(p2, args) + SelectedTypes(p3, args) + SelectedTypes(p4, args)
          + SelectedTypes(p5, args) + SelectedTypes(p6, args) + SelectedTypes(p7, args)
  {
    SelectedAppend(p1, p2, args);
    SelectedAppend(p1 + p2, p3, args);
    SelectedAppend(p1 + p2 + p3, p4, args);
    SelectedAppend(p1 + p2 + p3 + p4, p5, args);
    SelectedAppend(p1 + p2 + p3 + p4 + p5, p6, args);
    SelectedAppend(p1 + p2 + p3 + p4 + p5 + p6, p7, args);
  }

  /** Without arguments every change type is kept, in table order. */
  lemma {:induction false} SelectedWithoutArgs(table: seq<CommitType>)
    ensures SelectedTypes(table, []) == Types(table)
    decreases |table|
  {
    if |table| > 0 {
      SelectedWithoutArgs(table[1..]);
    }
  }

  /** Only the set of arguments matters: not their order, nor repetitions. */
  lemma {:induction false} SelectedBySet(table: seq<CommitType>, args: seq<string>, other: seq<string>)
    requires forall a :: a in args <==> a in other
    ensures SelectedTypes(table, args) == SelectedTypes(table, other)
    decreases |table|
  {
    if |args| > 0 {
      assert args[0] in other;
    }
    if |other| > 0 {
      assert other[0] in args;
    }
    if |table| > 0 {
      SelectedBySet(table[1..], args, other);
    }
  }

  /** Adding arguments that name no change type of the table changes nothing, once there are arguments. */
  lemma {:induction false} UnknownArgsIgnored(table: seq<CommitType>, args: seq<string>, extra: seq<string>)
    requires |args| > 0
    requires forall k :: 0 <= k < |extra| ==> extra[k] !in Types(table)
    ensures SelectedTypes(table, args + extra) == SelectedTypes(table, args)
    decreases |table|
  {
    if |table| > 0 {
      assert table[0].changeType == Types(table)[0];
      assert Types(table[1..]) == Types(table)[1..];
      UnknownArgsIgnored(table[1..], args, extra);
    }
  }

  /** Arguments that name no change type of the table give the empty pattern. */
  lemma {:induction false} UnknownArgs(table: seq<CommitType>, args: seq<string>)
    requires |args| > 0
    requires forall i :: 0 <= i < |table| ==> table[i].changeType !in args
    ensures SelectedTypes(table, args) == []
    ensures GetTypePattern(table, args) == ""
    decreases |table|
  {
    if |table| > 0 {
      UnknownArgs(table[1..], args);
    }
  }

  /** Arguments that name every change type of the table keep all of them. */
  lemma {:induction false} KnownArgs(table: seq<CommitType>, args: seq<string>)
    requires forall i :: 0 <= i < |table| ==> table[i].changeType in args
    ensures SelectedTypes(table, args) == Types(table)
    decreases |table|
  {
    if |table| > 0 {
      KnownArgs(table[1..], args);
    }
  }

  /** A change type usable in the pattern: not empty and without `|`. */
  predicate PatternSafe(t: string) {
    |t| > 0 && NoChar(t, '|')
  }

  /** Splitting the pattern at `|` gives back the kept change types. */
  lemma PatternSplit(table: seq<CommitType>, args: seq<string>)
    requires forall i :: 0 <= i < |table| ==> NoChar(table[i].changeType, '|')
    requires |SelectedTypes(table, args)| > 0
    ensures Split(GetTypePattern(table, args), '|') == SelectedTypes(table, args)
  {
    var kept := SelectedTypes(table, args);
    forall k | 0 <= k < |kept|
      ensures NoChar(kept[k], '|')
    {
      SelectedMembership(table, args, kept[k]);
    }
    SplitJoin(kept, '|');
  }

  /* ---------------------------------------------------------------------------------- */
  /* get_change_type_choices                                                             */

  /** The choice entry of one row: its value and its displayed name. */
  function Choice(c: CommitType): string {
    "{value = \"" + c.emoji + " " + c.changeType + "\", name = \""
      + c.emoji + " " + c.changeType + ": " + c.description + "\"}"
  }

  /** The choice entries of a table, in table order. */
  function Choices(table: seq<CommitType>): (r: seq<string>)
    ensures |r| == |table|
    ensures forall i :: 0 <= i < |table| ==> r[i] == Choice(table[i])
  {
    if |table| == 0 then [] else [Choice(table[0])] + Choices(table[1..])
  }

  /** `get_change_type_choices`: the entries joined with a comma, a newline and a tab. */
  function GetChangeTypeChoices(table: seq<CommitType>): string {
    Join(",\n\t", Choices(table))
  }

  /** A row none of whose texts has a line break. */
  predicate SingleLine(c: CommitType) {
    NoChar(c.emoji, '\n') && NoChar(c.changeType, '\n') && NoChar(c.description, '\n')
  }

  lemma ChoiceSingleLine(c: CommitType)
    requires SingleLine(c)
    ensures NoChar(Choice(c), '\n')
  {
  }

  /**
   * The choices read line by line: one line per row in table order, every line but the
   * first starting with a tab and every line but the last ending with a comma.
   */
  lemma ChoiceLines(table: seq<CommitType>)
    requires |table| > 0
    requires forall i :: 0 <= i < |table| ==> SingleLine(table[i])
    ensures var lines := Split(GetChangeTypeChoices(table), '\n');
            && |lines| == |table|
            && forall i :: 0 <= i < |table| ==>
                 lines[i] == (if i == 0 then "" else "\t") + Choice(table[i]) + (if i < |table| - 1 then "," else "")
  {
    var parts := Choices(table);
    JoinDecorate(parts, ",", '\n', "\t", "");
    assert ",\n\t" == "," + ['\n'] + "\t";
    assert "" + GetChangeTypeChoices(table) == GetChangeTypeChoices(table);
    var lines := Decorate(parts, ",", "\t", "");
    forall i | 0 <= i < |lines|
      ensures lines[i] == (if i == 0 then "" else "\t") + Choice(table[i]) + (if i < |table| - 1 then "," else "")
      ensures NoChar(lines[i], '\n')
    {
      DecorateAt(parts, ",", "\t", "", i);
      ChoiceSingleLine(table[i]);
    }
    SplitJoin(lines, '\n');
  }

  /* ---------------------------------------------------------------------------------- */
  /* Facts about the table itself                                                        */

  /**
   * A row that `get_info_via_type` does not strip: the emoji is not empty and does not
   * start with a space, and the type is not empty and does not end with one.
   */
  predicate Unstripped(c: CommitType) {
    && |c.emoji| > 0 && !IsSpace(c.emoji[0])
    && |c.changeType| > 0 && !IsSpace(c.changeType[|c.changeType| - 1])
  }

  /** Rows that `get_info_via_type` does not strip and whose types have no `|`. */
  predicate AllPlain(table: seq<CommitType>) {
    && (forall i :: 0 <= i < |table| ==> Unstripped(table[i]))
    && (forall i :: 0 <= i < |table| ==> NoChar(table[i].changeType, '|'))
  }

  /** No two rows share a change type. */
  predicate DistinctTypes(table: seq<CommitType>) {
    forall i, j :: 0 <= i < j < |table| ==> table[i].changeType != table[j].changeType
  }

  /** No change type of `earlier` is a change type of `later`. */
  predicate Unseen(earlier: seq<CommitType>, later: seq<CommitType>) {
    forall i, j :: 0 <= i < |earlier| && 0 <= j < |later| ==> earlier[i].changeType != later[j].changeType
  }

  lemma DistinctAppend(earlier: seq<CommitType>, later: seq<CommitType>)
    requires DistinctTypes(earlier) && DistinctTypes(later) && Unseen(earlier, later)
    requires AllPlain(earlier) && AllPlain(later)
    ensures DistinctTypes(earlier + later) && AllPlain(earlier + later)
  {
  }

  lemma UnseenAppend(first: seq<CommitType>, second: seq<CommitType>, later: seq<CommitType>)
    requires Unseen(first, later) && Unseen(second, later)
    ensures Unseen(first + second, later)
  {
  }

  lemma FirstRowsUnstripped()
    ensures forall i :: 0 <= i < |FirstRows| ==> Unstripped(FirstRows[i])
  {
  }

  lemma FirstRowsBarFree()
    ensures forall i :: 0 <= i < |FirstRows| ==> NoChar(FirstRows[i].changeType, '|')
  {
  }

  lemma FirstRowsDistinct()
    ensures DistinctTypes(FirstRows)
  {
  }

  lemma SecondRowsUnstripped()
    ensures forall i :: 0 <= i < |SecondRows| ==> Unstripped(SecondRows[i])
  {
  }

  lemma SecondRowsBarFree()
    ensures forall i :: 0 <= i < |SecondRows| ==> NoChar(SecondRows[i].changeType, '|')
  {
  }

  lemma SecondRowsDistinct()
    ensures DistinctTypes(SecondRows)
  {
  }

  lemma ThirdRowsUnstripped()
    ensures forall i :: 0 <= i < |ThirdRows| ==> Unstripped(ThirdRows[i])
  {
  }

  lemma ThirdRowsBarFree()
    ensures forall i :: 0 <= i < |ThirdRows| ==> NoChar(ThirdRows[i].changeType, '|')
  {
  }

  lemma ThirdRowsDistinct()
    ensures DistinctTypes(ThirdRows)
  {
  }

  lemma FourthRowsUnstripped()
    ensures forall i :: 0 <= i < |FourthRows| ==> Unstripped(FourthRows[i])
  {
  }

  lemma FourthRowsBarFree()
    ensures forall i :: 0 <= i < |FourthRows| ==> NoChar(FourthRows[i].changeType, '|')
  {
  }

  lemma FourthRowsDistinct()
    ensures DistinctTypes(FourthRows)
  {
  }

  lemma FifthRowsUnstripped()
    ensures forall i :: 0 <= i < |FifthRows| ==> Unstripped(FifthRows[i])
  {
  }

  lemma FifthRowsBarFree()
    ensures forall i :: 0 <= i < |FifthRows| ==> NoChar(FifthRows[i].changeType, '|')
  {
  }

  lemma FifthRowsDistinct()
    ensures DistinctTypes(FifthRows)
  {
  }

  lemma SixthRowsUnstripped()
    ensures forall i :: 0 <= i < |SixthRows| ==> Unstripped(SixthRows[i])
  {
  }

  lemma SixthRowsBarFree()
    ensures forall i :: 0 <= i < |SixthRows| ==> NoChar(SixthRows[i].changeType, '|')
  {
  }

  lemma SixthRowsDistinct()
    ensures DistinctTypes(SixthRows)
  {
  }

  lemma SeventhRowsUnstripped()
    ensures forall i :: 0 <= i < |SeventhRows| ==> Unstripped(SeventhRows[i])
  {
  }

  lemma SeventhRowsBarFree()
    ensures forall i :: 0 <= i < |SeventhRows| ==> NoChar(SeventhRows[i].changeType, '|')
  {
  }

  lemma SeventhRowsDistinct()
    ensures DistinctTypes(SeventhRows)
  {
  }

  lemma SecondRowsAfterFirst()
    ensures Unseen(FirstRows, SecondRows)
  {
  }

  lemma ThirdRowsAfterSecond()
    ensures Unseen(FirstRows + SecondRows, ThirdRows)
  {
  }

  lemma FourthRowsAfterThird()
    ensures Unseen(FirstRows + SecondRows + ThirdRows, FourthRows)
  {
  }

  lemma FifthRowsAfterThird()
    ensures Unseen(FirstRows + SecondRows + ThirdRows, FifthRows)
  {
  }

  lemma SixthRowsAfterThird()
    ensures Unseen(FirstRows + SecondRows + ThirdRows, SixthRows)
  {
  }

  lemma SeventhRowsAfterThird()
    ensures Unseen(FirstRows + SecondRows + ThirdRows, SeventhRows)
  {
  }

  lemma FifthRowsAfterFourth()
    ensures Unseen(FourthRows, FifthRows)
  {
  }

  lemma SixthRowsAfterFourth()
    ensures Unseen(FourthRows, SixthRows)
  {
  }

  lemma SeventhRowsAfterFourth()
    ensures Unseen(FourthRows, SeventhRows)
  {
  }

  lemma SixthRowsAfterFifth()
    ensures Unseen(FifthRows, SixthRows)
  {
  }

  lemma SeventhRowsAfterFifth()
    ensures Unseen(FifthRows, SeventhRows)
  {
  }

  lemma SeventhRowsAfterSixth()
    ensures Unseen(SixthRows, SeventhRows)
  {
  }

  /** The shipped table: every row is plain and no change type appears twice. */
  lemma TableFacts()
    ensures AllPlain(CommitTypes) && DistinctTypes(CommitTypes)
  {
    FirstRowsUnstripped();
    FirstRowsBarFree();
    FirstRowsDistinct();
    SecondRowsUnstripped();
    SecondRowsBarFree();
    SecondRowsDistinct();
    ThirdRowsUnstripped();
    ThirdRowsBarFree();
    ThirdRowsDistinct();
    FourthRowsUnstripped();
    FourthRowsBarFree();
    FourthRowsDistinct();
    FifthRowsUnstripped();
    FifthRowsBarFree();
    FifthRowsDistinct();
    SixthRowsUnstripped();
    SixthRowsBarFree();
    SixthRowsDistinct();
    SeventhRowsUnstripped();
    SeventhRowsBarFree();
    SeventhRowsDistinct();
    SecondRowsAfterFirst();
    ThirdRowsAfterSecond();
    FourthRowsAfterThird();
    FifthRowsAfterThird();
    SixthRowsAfterThird();
    SeventhRowsAfterThird();
    FifthRowsAfterFourth();
    SixthRowsAfterFourth();
    SeventhRowsAfterFourth();
    SixthRowsAfterFifth();
    SeventhRowsAfterFifth();
    SeventhRowsAfterSixth();
    var upTo2 := FirstRows + SecondRows;
    DistinctAppend(FirstRows, SecondRows);
    var upTo3 := upTo2 + ThirdRows;
    DistinctAppend(upTo2, ThirdRows);
    var upTo4 := upTo3 + FourthRows;
    DistinctAppend(upTo3, FourthRows);
    UnseenAppend(upTo3, FourthRows, FifthRows);
    var upTo5 := upTo4 + FifthRows;
    DistinctAppend(upTo4, FifthRows);
    UnseenAppend(upTo3, FourthRows, SixthRows);
    UnseenAppend(upTo4, FifthRows, SixthRows);
    var upTo6 := upTo5 + SixthRows;
    DistinctAppend(upTo5, SixthRows);
    UnseenAppend(upTo3, FourthRows, SeventhRows);
    UnseenAppend(upTo4, FifthRows, SeventhRows);
    UnseenAppend(upTo5, SixthRows, SeventhRows);
    DistinctAppend(upTo6, SeventhRows);
  }

  /**
   * `get_info_via_type(t)` on the shipped table: a row with type `t` is the first and only
   * one, and its info is its emoji, a space and `t`.
   */
  lemma TableInfo(t: string, i: int)
    requires 0 <= i < |CommitTypes| && CommitTypes[i].changeType == t
    ensures forall j :: 0 <= j < |CommitTypes| && j != i ==> CommitTypes[j].changeType != t
    ensures Info(CommitTypes[i]) == CommitTypes[i].emoji + " " + t
  {
    TableFacts();
    InfoUnstripped(CommitTypes[i]);
  }

  /** On the shipped table, any non-empty pattern splits back at `|` into the kept types. */
  lemma TablePatternSplit(args: seq<string>)
    requires |SelectedTypes(CommitTypes, args)| > 0
    ensures Split(GetTypePattern(CommitTypes, args), '|') == SelectedTypes(CommitTypes, args)
  {
    TableFacts();
    PatternSplit(CommitTypes, args);
  }

  /** The arguments of the bump pattern. */
  const BumpTypes: seq<string> := ["breaking", "feat", "fix", "hotfix"]

  lemma FirstRowsBump()
    ensures SelectedTypes(FirstRows, BumpTypes) == ["feat", "fix", "hotfix"]
  {
    var kept, skipped := FirstRows[..3], FirstRows[3..];
    assert FirstRows == kept + skipped;
    KnownArgs(kept, BumpTypes);
    UnknownArgs(skipped, BumpTypes);
    SelectedAppend(kept, skipped, BumpTypes);
  }

  lemma FifthRowsBump()
    ensures SelectedTypes(FifthRows, BumpTypes) == ["breaking"]
  {
    var skipped, kept := FifthRows[..6], FifthRows[6..];
    assert FifthRows == skipped + kept;
    UnknownArgs(skipped, BumpTypes);
    KnownArgs(kept, BumpTypes);
    SelectedAppend(skipped, kept, BumpTypes);
  }

  lemma BumpConcat(s1: seq<string>, s2: seq<string>, s3: seq<string>, s4: seq<string>,
                   s5: seq<string>, s6: seq<string>, s7: seq<string>)
    requires s1 == ["feat", "fix", "hotfix"] && s5 == ["breaking"]
    requires s2 == [] && s3 == [] && s4 == [] && s6 == [] && s7 == []
    ensures s1 + s2 + s3 + s4 + s5 + s6 + s7 == ["feat", "fix", "hotfix", "breaking"]
  {
  }

  lemma BumpJoin()
    ensures Join("|", ["feat", "fix", "hotfix", "breaking"]) == "feat|fix|hotfix|breaking"
  {
  }

  lemma SecondRowsBump()
    ensures SelectedTypes(SecondRows, BumpTypes) == []
  {
    UnknownArgs(SecondRows, BumpTypes);
  }

  lemma ThirdRowsBump()
    ensures SelectedTypes(ThirdRows, BumpTypes) == []
  {
    UnknownArgs(ThirdRows, BumpTypes);
  }

  lemma FourthRowsBump()
    ensures SelectedTypes(FourthRows, BumpTypes) == []
  {
    UnknownArgs(FourthRows, BumpTypes);
  }

  lemma SixthRowsBump()
    ensures SelectedTypes(SixthRows, BumpTypes) == []
  {
    UnknownArgs(SixthRows, BumpTypes);
  }

  lemma SeventhRowsBump()
    ensures SelectedTypes(SeventhRows, BumpTypes) == []
  {
    UnknownArgs(SeventhRows, BumpTypes);
  }

  /** The bump arguments keep four types, in table order rather than argument order. */
  lemma BumpSelected()
    ensures SelectedTypes(CommitTypes, BumpTypes) == ["feat", "fix", "hotfix", "breaking"]
  {
    FirstRowsBump();
    SecondRowsBump();
    ThirdRowsBump();
    FourthRowsBump();
    FifthRowsBump();
    SixthRowsBump();
    SeventhRowsBump();
    SelectedParts(FirstRows, SecondRows, ThirdRows, FourthRows, FifthRows, SixthRows, SeventhRows, BumpTypes);
    BumpConcat(SelectedTypes(FirstRows, BumpTypes), SelectedTypes(SecondRows, BumpTypes), SelectedTypes(ThirdRows, BumpTypes),
               SelectedTypes(FourthRows, BumpTypes), SelectedTypes(FifthRows, BumpTypes), SelectedTypes(SixthRows, BumpTypes),
               SelectedTypes(SeventhRows, BumpTypes));
  }

  /** `get_type_pattern("breaking", "feat", "fix", "hotfix")`, the pattern that decides a version bump. */
  lemma BumpPattern()
    ensures GetTypePattern(CommitTypes, BumpTypes) == "feat|fix|hotfix|breaking"
  {
    BumpSelected();
    BumpJoin();
  }
}
