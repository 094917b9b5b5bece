# pyproject-creator, modelled in Dafny

pyproject-creator is a command-line generator for new Python projects. This model covers
its three pieces of string logic:

- **The logging template** (`pyproject_creator/template/logs/_default.py`):
  - `desensitize_value` masks a value.
  - `desensitize_data` rewrites a log message with one case-insensitive `re.sub` per
    keyword, and masks only the value that follows each keyword.
  - `default_filter` redacts a record's message in place, then compares its severity with
    the configured level.
  - At load time, the module picks a sink format, diagnose and backtrace settings,
    depending on whether the level is `"DEBUG"`.
- **The command line** (`pyproject_creator/cli.py`):
  - `validate_project_name` accepts or rejects a project name.
  - The source package name is derived from the project name.
  - `create_project` decides which files and directories a new project gets, and which
    variables `pyproject.toml` is rendered with.
- **The commitizen generator** (`scripts/gen_commitizen_toml.py`):
  - the table of 49 commit types;
  - `get_info_via_type`, `get_type_pattern` and `get_change_type_choices`.

## Modules

- `Wrappers` (wrappers.dfy): the `Option` and `Result` types.
- `Text` (text.dfy): Python's `str.split`, `str.join` and `str.strip`, and the character
  classes that the code relies on. `IsSpace` is the set of characters for which `str.isspace()`
  holds, which is also the set that `\s` matches.
- `Redaction` (redaction.dfy):
  - `desensitize_value`;
  - the regular expression built for each keyword, modelled as Python's backtracking
    matcher runs it (`Try`/`MatchAt`);
  - `re.sub` with `header_replacer` (`SubFrom`);
  - `desensitize_data`, as a fold (`DesensitizeAll`) and as the loop (`DesensitizeData`).
- `Logs` (logs.dfy):
  - the module settings;
  - the level lookup;
  - `default_filter`, as a method on a `LogRecord` object whose `message` it rewrites;
  - the sink chosen at load time.
- `Cli` (cli.dfy):
  - the name pattern, `validate_project_name` and the `-`→`_` derivation;
  - `create_project` as a plan: the set of paths made relative to the project directory,
    plus the render variables. `CopyPlan` follows the source's steps in order, including
    the error that `shutil.copytree` raises when its target already exists.
- `Commitizen` (commitizen.dfy):
  - the table, written down as seven consecutive parts of seven rows;
  - the three queries. The queries are defined for any table, and facts about the shipped
    table are proved part by part.

Behaviour of the code as written, which the model keeps:

- **Values can start with delimiters.** In the value pattern `.*?['"]?[^;,]+`, the lazy
  `.*?` first passes over any `;` and `,` that follow the key. Group 3 then begins with
  those delimiters, which are masked along with the value: `key=;abcdefgh` becomes
  `key=;ab*****fgh`. `LazyValueIsValueEnd` states exactly where group 3 ends.
- **Newlines end the name check.** Python's `$` also matches before a final newline.
  So `validate_project_name` accepts `"abc\n"`, and also `"abc-\n"`, because the check
  for a trailing `-` or `_` looks at the newline.
- **`need_logs` comes from the `tests` flag.** The tests directory is copied when `logs`
  is set.
- **Some names fail late.** A project named `scripts` fails when the scripts tree is
  copied onto its own package directory. A project named `tests` fails in the same way
  when logs are wanted.
- **Only the name `"DEBUG"` selects the detailed format.** A `LOG_LEVEL` given as the
  number 10 does not.

## Model

| member | source | states |
|---|---|---|
| Redaction.DesensitizeValue | pyproject_creator/template/logs/_default.py:30-36 | a value of at most 6 characters is returned unchanged; a longer one becomes its first 3 characters, five asterisks, and its last 4 characters if it ends in a quote, otherwise its last 3 |
| Redaction.MaskedLength | pyproject_creator/template/logs/_default.py:31-34 | a masked value is 11 or 12 characters long whatever the input length, and 12 exactly when the input ends in a quote |
| Redaction.MaskKeepsLastChar | pyproject_creator/template/logs/_default.py:33 | masking keeps the last character, so a closing quote survives |
| Redaction.MaskIdempotent | pyproject_creator/template/logs/_default.py:30-36 | masking an already-masked value changes nothing |
| Redaction.MaskExample | tests/test_log_func.py:37-40 | "1234567890" becomes "123*****890"; "12" and "123456" are kept |
| Redaction.FoldEq | pyproject_creator/template/logs/_default.py:54 | a message character equals a keyword character under `re.IGNORECASE`: the same letter in either case, or a non-ASCII character Python folds onto `i`, `k` or `s` |
| Redaction.KeyAt | pyproject_creator/template/logs/_default.py:51-54 | the keyword stands at a position, compared character by character ignoring case |
| Redaction.RunEnd | pyproject_creator/template/logs/_default.py:51 | greedy `[^;,]+` stops at the first `;` or `,` or at the end of the text |
| Redaction.TailEnd | pyproject_creator/template/logs/_default.py:51 | `['"]?[^;,]+` from a position takes the quote when a run follows it, otherwise no quote; any end found lies after the position |
| Redaction.LazyValue | pyproject_creator/template/logs/_default.py:51 | the lazy `.*?` of group 3 is widened one character at a time, never over a newline, until the rest of the group matches; any end found lies after where `.*?` began |
| Redaction.SkipDelimiters | pyproject_creator/template/logs/_default.py:51 | the first position at or after a given one that holds neither `;` nor `,` |
| Redaction.ValueEnd | pyproject_creator/template/logs/_default.py:51 | a value found by group 3 ends on a non-delimiter, at the end of the text or just before a `;` or `,` |
| Redaction.LazyValueIsValueEnd | pyproject_creator/template/logs/_default.py:51 | the backtracking search of `.*?['"]?[^;,]+` ends exactly where "skip the delimiters, then take the longest run of non-delimiters" ends, and fails exactly when only delimiters remain |
| Redaction.OrElse | pyproject_creator/template/logs/_default.py:51 | greedy order of an optional element: the alternative with its character wins whenever it matches, and the other is tried only when it fails |
| Redaction.Try | pyproject_creator/template/logs/_default.py:51 | any match found from a pattern element on starts where the match began, and has ordered groups with a non-empty key part and value |
| Redaction.MatchAt | pyproject_creator/template/logs/_default.py:51 | a match tried at position p starts at p, and its three groups follow each other, with groups 1 and 3 non-empty |
| Redaction.ValueShape | pyproject_creator/template/logs/_default.py:51 | a match completed from group 3 on has the shape of the pattern (as in MatchShape) |
| Redaction.OpenQuoteShape | pyproject_creator/template/logs/_default.py:51 | a match completed from group 2 on has the shape of the pattern (as in MatchShape) |
| Redaction.SpaceShape | pyproject_creator/template/logs/_default.py:51 | a match completed from `\s?` on has the shape of the pattern (as in MatchShape) |
| Redaction.SeparatorShape | pyproject_creator/template/logs/_default.py:51 | a match completed from `[=:]` on has the shape of the pattern (as in MatchShape) |
| Redaction.CloseQuoteShape | pyproject_creator/template/logs/_default.py:51 | a match completed from the optional quote after the keyword on has the shape of the pattern (as in MatchShape) |
| Redaction.KeywordShape | pyproject_creator/template/logs/_default.py:50-55 | a match completed from the keyword on has the shape of the pattern, and the keyword stands there, ignoring case |
| Redaction.MatchShape | pyproject_creator/template/logs/_default.py:50-55 | every match starts with the keyword (ignoring case), or with a quote followed by the keyword; its opening quote is at most one quote character; its value is not empty, ends on a non-delimiter, and is followed by a `;`, a `,` or the end of the text |
| Redaction.ValueFrom | pyproject_creator/template/logs/_default.py:51 | when a value exists from position q, group 3 runs from q to ValueEnd |
| Redaction.SpaceFrom | pyproject_creator/template/logs/_default.py:51 | after the separator, one whitespace character is taken when present, then a quote when present, then the value up to ValueEnd |
| Redaction.CloseQuoteFrom | pyproject_creator/template/logs/_default.py:51 | from the optional quote after the keyword: a quote is taken when present, then `=` or `:`, then the rest as in SpaceFrom |
| Redaction.KeywordFrom | pyproject_creator/template/logs/_default.py:51 | from the keyword on, when the key/value layout is present, the match ends at ValueEnd with group 1 and group 2 as that layout gives them |
| Redaction.KeyValueMatch | pyproject_creator/template/logs/_default.py:50-55 | where an optional quote, the keyword, an optional quote, `=` or `:`, an optional whitespace character and an optional quote stand, the match is exactly those, followed by the value up to ValueEnd |
| Redaction.SubAtMatch | pyproject_creator/template/logs/_default.py:40-55 | at a match, the output keeps the key part and the opening quote, masks only the value, and resumes after the match; the fallback of `header_replacer` is never taken |
| Redaction.SubSkip | pyproject_creator/template/logs/_default.py:50-55 | where no match starts, the character is copied and the scan moves on by one |
| Redaction.SubPassThrough | pyproject_creator/template/logs/_default.py:50-55 | a stretch of positions where no match starts is copied unchanged |
| Redaction.SubBeforeKeyword | pyproject_creator/template/logs/_default.py:50-55 | text in which the keyword does not occur, ignoring case, is copied unchanged |
| Redaction.SubWithoutKeyword | pyproject_creator/template/logs/_default.py:50-55 | a message that never mentions the keyword is returned unchanged |
| Redaction.KeyValueRewrite | pyproject_creator/template/logs/_default.py:40-55 | at a key/value site, the output is the key text copied verbatim, then the masked value, then the substitution of the rest |
| Redaction.RunToEnd | pyproject_creator/template/logs/_default.py:51 | with no delimiter left, the run of non-delimiters reaches the end of the message |
| Redaction.ValueToEnd | pyproject_creator/template/logs/_default.py:51 | when no `;` or `,` follows the start of group 3, the value runs to the end of the message |
| Redaction.HeaderReplacer | pyproject_creator/template/logs/_default.py:40-47 | the replacement always begins with the key part and the opening quote copied verbatim; when the key part and the value are both non-empty the rest is the masked value |
| Redaction.SubFrom | pyproject_creator/template/logs/_default.py:50-55 | `re.sub` scanning from a position: a match found there is replaced by `header_replacer` and the scan resumes at its end; otherwise the character is copied and the scan moves on by one |
| Redaction.SubWith | pyproject_creator/template/logs/_default.py:50-55 | one step of that scan, given the outcome of the match at the current position |
| Redaction.Sub | pyproject_creator/template/logs/_default.py:50-55 | the substitution for one keyword over the whole message |
| Redaction.DesensitizeAll | pyproject_creator/template/logs/_default.py:49-56 | the message after one substitution per keyword, in list order, each on the output of the previous one |
| Redaction.FoldKeywordsAppend | pyproject_creator/template/logs/_default.py:49-55 | applying the keywords of two lists in turn is applying their concatenation |
| Redaction.DesensitizeAllFirst | pyproject_creator/template/logs/_default.py:49-55 | the first keyword works on the message, and each later keyword on the previous output |
| Redaction.DesensitizeAllAppend | pyproject_creator/template/logs/_default.py:49-56 | redaction with a concatenated keyword list is redaction with the first list, then with the second |
| Redaction.DesensitizeAllWithoutKeywords | pyproject_creator/template/logs/_default.py:39-56 | a message that mentions none of the keywords is returned unchanged; with no keywords, any message is |
| Redaction.DesensitizeData | pyproject_creator/template/logs/_default.py:39-56 | the loop that reassigns the message once per keyword returns the fold of one substitution per keyword, in list order |
| Logs.DefaultConfig | pyproject_creator/template/logs/_default.py:25-27 | the shipped settings: level name "INFO", keywords ["Cookie"], project name "<set project name>" |
| Logs.StandardLevels | pyproject_creator/template/logs/_default.py:61 | the logger's built-in level numbers by name: TRACE 5, DEBUG 10, INFO 20, SUCCESS 25, WARNING 30, ERROR 40, CRITICAL 50 |
| Logs.LogRecord.constructor | pyproject_creator/template/logs/_default.py:59-64 | a record holds the message and the severity number it was made with |
| Logs.Threshold | pyproject_creator/template/logs/_default.py:60-61 | a number is used as it is; a name is looked up among the logger's levels, and fails when unknown |
| Logs.Admits | pyproject_creator/template/logs/_default.py:61-64 | the filter's answer: fails when the level lookup fails, otherwise whether the severity reaches the threshold |
| Logs.FilteredMessage | pyproject_creator/template/logs/_default.py:62-63 | with no keywords, the message is left as it is |
| Logs.DefaultFilter | pyproject_creator/template/logs/_default.py:59-64 | the answer is whether the severity reaches the threshold; the message is redacted when keywords are set; only the message field changes; an unknown level name fails before the message is touched |
| Logs.AdmitsMonotone | pyproject_creator/template/logs/_default.py:64 | a higher severity is admitted whenever a lower one is |
| Logs.AdmitsFromThreshold | pyproject_creator/template/logs/_default.py:61-64 | a record exactly at the threshold passes, and one just below it does not |
| Logs.AdmitsFails | pyproject_creator/template/logs/_default.py:61 | the filter fails exactly when the level is a name the logger does not know |
| Logs.DefaultThreshold | pyproject_creator/template/logs/_default.py:25-64 | with the shipped settings, INFO records and above pass and DEBUG records do not |
| Logs.DebugFormat | pyproject_creator/template/logs/_default.py:72-78 | the detailed format: time, level, `{name}`, `{function}:{line}`, then the message |
| Logs.ProjectFormat | pyproject_creator/template/logs/_default.py:83-88 | the compact format has the time, level and message fields and no `{name}`, `{function}` or `{line}` field; the project name is literal text |
| Logs.SinkFor | pyproject_creator/template/logs/_default.py:91-98 | the sink is added at level 0 |
| Logs.SinkForDebug | pyproject_creator/template/logs/_default.py:69-89 | diagnose, backtrace and the `{name}`, `{function}` and `{line}` fields are present exactly when the level is the name "DEBUG"; otherwise the project name is written into the format |
| Logs.NumericDebugIsNotDebug | pyproject_creator/template/logs/_default.py:69 | the level given as the number 10 selects the compact format without diagnose |
| Logs.FilterAloneGates | pyproject_creator/template/logs/_default.py:91-98 | for any non-negative severity, the sink writes a record exactly when the filter admits it |
| Text.Join | scripts/gen_commitizen_toml.py:103 | `str.join`: the parts with the separator between each two |
| Text.Split | scripts/gen_commitizen_toml.py:103 | `str.split` on one character, the reading that undoes the join; it always gives at least one part |
| Text.SplitJoin | scripts/gen_commitizen_toml.py:103 | splitting on a character undoes joining with it when no part contains it |
| Text.Strip | pyproject_creator/cli.py:201 | `strip` returns a slice of the input; only characters to drop are removed before and after it, and a non-empty result neither starts nor ends with one |
| Cli.MatchesNamePattern | pyproject_creator/cli.py:18 | `re.match` of the name pattern: a letter or digit, then name characters up to the end, or up to a final newline |
| Cli.NameRunEnd | pyproject_creator/cli.py:18 | the greedy `[a-zA-Z0-9_-]*` stops at the first character outside the class |
| Cli.NamePatternIff | pyproject_creator/cli.py:18 | the pattern matches exactly the strings that start with a letter or digit and continue with name characters, allowing one final newline |
| Cli.ValidateProjectName | pyproject_creator/cli.py:16-25 | an accepted name is returned unchanged |
| Cli.ValidateIff | pyproject_creator/cli.py:16-25 | a name is accepted iff it has the pattern's shape and does not end in `-` or `_`; the first message is given iff the shape is wrong |
| Cli.RejectsBadStart | pyproject_creator/cli.py:18-22 | the empty name and names starting with `-` or `_` get the first message |
| Cli.RejectsForeignChar | pyproject_creator/cli.py:18-22 | a character outside `[A-Za-z0-9_-]`, other than a final newline, gets the first message |
| Cli.RejectsBadEnd | pyproject_creator/cli.py:23-24 | a well-shaped name ending in `-` or `_` gets the second message |
| Cli.AcceptsFinalNewline | pyproject_creator/cli.py:18-24 | a well-shaped body followed by a newline is accepted, even after a hyphen |
| Cli.AcceptsUnderscoreName | tests/test_create_project.py:29 | "valid_project_name" is accepted |
| Cli.AcceptsHyphenName | tests/test_create_project.py:30 | "valid-project-name" is accepted |
| Cli.AcceptsMixedCaseName | tests/test_create_project.py:31 | "validProjectName1234" is accepted |
| Cli.RejectsSpaceName | tests/test_create_project.py:33-34 | "invalid project name" is rejected |
| Cli.RejectsLeadingHyphenName | tests/test_create_project.py:36-37 | "-invalid-project-name" is rejected |
| Cli.RejectsLeadingUnderscoreName | tests/test_create_project.py:39-40 | "_invalid_project_name" is rejected |
| Cli.RejectsTrailingHyphenName | tests/test_create_project.py:42-43 | "invalid_project_name-" is rejected |
| Cli.RejectsTrailingUnderscoreName | tests/test_create_project.py:45-46 | "invalid_project_name_" is rejected |
| Cli.SrcName | pyproject_creator/cli.py:79 | same length; every `-` becomes `_` and every other character stays |
| Cli.SrcNameNoHyphen | pyproject_creator/cli.py:79 | the package name has no hyphen, and deriving it again changes nothing |
| Cli.SrcNameOfValid | pyproject_creator/cli.py:79 | an accepted name gives a package name whose characters are letters, digits and underscores, apart from a possible final newline |
| Cli.SrcNameWithoutUnderscore | pyproject_creator/cli.py:79 | a package name without `-` or `_` arises only from the identical project name |
| Cli.FinalComponent | pyproject_creator/cli.py:197 | the final component of a path has no slash |
| Cli.FinalComponentJoin | pyproject_creator/cli.py:196-212 | the final component of `dir/name` is `name` |
| Cli.CopyTree | pyproject_creator/cli.py:169-173 | a tree copy succeeds iff its target does not exist yet, and then adds exactly the target |
| Cli.CopyPlan | pyproject_creator/cli.py:163-192 | the copies in source order: the single files, `scripts`, the logs package and `tests` under the `logs` flag, the workflows, then `pyproject.toml`; a tree copy onto an existing path fails |
| Cli.CopyPlanFails | pyproject_creator/cli.py:163-173 | copying fails iff the package directory is `scripts`, or is `tests` when logs are wanted |
| Cli.CopyPlanPaths | pyproject_creator/cli.py:163-212 | the package, `__init__.py`, `.gitignore`, `.pre-commit-config.yaml`, `.cz.toml`, `scripts`, `pyproject.toml` and `README.md` are always made; `<src>/logs` iff logs; `tests` iff logs (or the package itself is named `tests`) |
| Cli.CopyPlanWorkflows | pyproject_creator/cli.py:174-189 | `test.yml` and `bumpversion.yml` iff the GitHub action is wanted; `pythonpublish.yml` iff it and the PyPI package are both wanted |
| Cli.Vars | pyproject_creator/cli.py:196-206 | the render variables, from the options, the project directory and the package name |
| Cli.CreateProject | pyproject_creator/cli.py:145-212 | validate the name, derive the package name, run the copy plan, then fix the render variables and the README text |
| Cli.AcceptedNameIsPackageName | pyproject_creator/cli.py:16-25 | an accepted name has no slash, and its package name starts with a letter or digit |
| Cli.CreateFails | pyproject_creator/cli.py:159-173 | creation fails iff the name is rejected, or is `scripts`, or is `tests` with logs |
| Cli.CreatedPaths | pyproject_creator/cli.py:159-192 | a created project has the paths of the copy plan for its package name and flags |
| Cli.CreatedVars | pyproject_creator/cli.py:196-212 | `project_name` is the name; `is_pypi_package` is "true"/"false"; `python_version` has its `^` stripped at both ends; `need_tests` and `need_logs` are the tests flag; `project_src_name` is the package name; README is "# name\n" |
| Cli.TestsFlagOnlyRenders | pyproject_creator/cli.py:170-204 | the tests flag changes only render variables, never whether creation succeeds or which paths are made |
| Commitizen.CommitTypes | scripts/gen_commitizen_toml.py:5-91 | the 49 rows of the table in source order, each an emoji, a change type and a description |
| Commitizen.Types | scripts/gen_commitizen_toml.py:5-91 | the change types of a table, one per row in order |
| Commitizen.Info | scripts/gen_commitizen_toml.py:97 | the stripped text "emoji type" of a row, never longer than the unstripped text |
| Commitizen.GetInfoViaType | scripts/gen_commitizen_toml.py:94-98 | fails with the type iff no row has it; otherwise returns the stripped "emoji type" of the first row that has it |
| Commitizen.InfoUnstripped | scripts/gen_commitizen_toml.py:97 | when the emoji does not start with a space and the type does not end with one, stripping changes nothing |
| Commitizen.TableInfo | scripts/gen_commitizen_toml.py:5-98 | in the shipped table, the row of a type is its only row, and its info is its emoji, a space and the type |
| Commitizen.SelectedTypes | scripts/gen_commitizen_toml.py:102 | the kept change types in table order: at most one per row, and one for every row when there are no arguments |
| Commitizen.GetTypePattern | scripts/gen_commitizen_toml.py:101-103 | the kept change types joined by the bar character |
| Commitizen.SelectedMembership | scripts/gen_commitizen_toml.py:101-103 | a type is kept in the pattern iff some row has it and there are no arguments or it is one of them |
| Commitizen.SelectedAppend | scripts/gen_commitizen_toml.py:102 | the kept types follow table order |
| Commitizen.SelectedWithoutArgs | scripts/gen_commitizen_toml.py:101-103 | without arguments, every change type is kept, in table order |
| Commitizen.SelectedBySet | scripts/gen_commitizen_toml.py:102 | the order of the arguments, and repeated arguments, do not matter |
| Commitizen.UnknownArgsIgnored | scripts/gen_commitizen_toml.py:102 | adding unknown names to non-empty arguments changes nothing |
| Commitizen.UnknownArgs | scripts/gen_commitizen_toml.py:102-103 | arguments that are all unknown give "" |
| Commitizen.KnownArgs | scripts/gen_commitizen_toml.py:102 | arguments naming every type of the table keep all of them |
| Commitizen.PatternSplit | scripts/gen_commitizen_toml.py:103 | a non-empty pattern split at the bar character gives back the kept types, provided no type contains a bar |
| Commitizen.TablePatternSplit | scripts/gen_commitizen_toml.py:5-103 | the same holds for the shipped table and any arguments |
| Commitizen.BumpSelected | scripts/gen_commitizen_toml.py:125 | the bump arguments keep feat, fix, hotfix and breaking, in that order |
| Commitizen.BumpPattern | scripts/gen_commitizen_toml.py:125 | the bump pattern is feat, fix, hotfix and breaking joined by bars, in that order |
| Commitizen.Choice | scripts/gen_commitizen_toml.py:107-111 | the choice entry of a row: its value is "emoji type" and its name is "emoji type: description" |
| Commitizen.Choices | scripts/gen_commitizen_toml.py:107-113 | one choice entry per row, in table order |
| Commitizen.GetChangeTypeChoices | scripts/gen_commitizen_toml.py:106-114 | the choice entries joined by a comma, a newline and a tab |
| Commitizen.ChoiceLines | scripts/gen_commitizen_toml.py:106-114 | read line by line, the choices are one entry per row in order; every line but the first starts with a tab, and every line but the last ends with a comma |
| Commitizen.TableFacts | scripts/gen_commitizen_toml.py:5-91 | in the shipped table, no two rows share a change type; every emoji is non-empty and does not start with a space; every type is non-empty, does not end with a space and has no bar character |

## Left out

- Loguru's internals are not modelled: removing and adding sinks, colour markup, time
  formatting, traceback rendering and the write to stdout. A format is modelled as the
  list of its literal pieces and fields, not as the rendered string.
- The level-name lookup of the logger is a parameter (a map from names to numbers).
  The shipped levels are given as a constant.
- `Redaction.DesensitizeData` and `Logs.DefaultFilter` require keywords made of ASCII
  letters, digits, `_` and `-`. The source inserts keywords into the pattern unescaped,
  so a keyword containing regular-expression metacharacters would change the pattern.
- Case-insensitive matching covers ASCII letters, plus the non-ASCII characters that
  Python folds onto `i`, `k` and `s`. The keywords themselves are ASCII.
- The example messages of `test_desensitize_data` are not proved as instances.
  `Redaction.KeyValueRewrite` states the general rule they follow.
- Logs.ProjectFormat: the project name is taken as literal text. Loguru reads `{…}` as
  fields and `<…>` as colour tags inside it, so the model holds only for a project name
  without `{`, `}`, `<` or `>`. A name such as `{name}` would bring back the field that
  `Logs.SinkForDebug` says the compact format lacks.
- `Cli.CreateProject` leaves out the filesystem and process effects:
  - the existence check, `mkdir` and `chdir` of `prompt_project_details`;
  - the actual copies;
  - jinja2 rendering;
  - `check_poetry_installed`, `run_command` and the git and Poetry commands after the files
    are written.
- `Cli.CreateProject` models the working directory as a parameter, and the project
  directory as `cwd + "/" + name`. Path resolution and case-insensitive filesystems are
  not modelled.
- The command's prompts and their order are not modelled; their answers are given as
  `Options`.
- `Commitizen.GetInfoViaType` reports a missing type with the type alone. The text of
  the `KeyError`, which includes the whole table, is not modelled.
- `main()` of the commitizen generator, which reads the template and writes `.cz.toml`,
  is not modelled.
- `Commitizen.ChoiceLines` is proved for any table without line breaks. That the
  shipped descriptions have none is not proved; checking them character by character is
  too costly for the verifier.
- `scripts/install_dependencies.py`, `scripts/publishpypi.py` and
  `pyproject_creator/template/scripts/commit_with_pre_commit.py` are thin subprocess
  wrappers and are not part of this model.
