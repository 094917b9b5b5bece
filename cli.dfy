/**
 * The decisions of the project generator's command line: whether a project name is
 * accepted, the name of the source package, and which paths and template variables a new
 * project gets.
 */
module Cli {
  import opened Wrappers
  import opened Text

  /* ---------------------------------------------------------------------------------- */
  /* validate_project_name                                                               */

  const BadCharactersMessage :=
    "Project name should start with a letter or number and contain only letters, numbers, "
    + "underscores, and hyphens, but not start with underscores or hyphens."

  const BadEndingMessage := "Project name should not end with a hyphen or underscore."

  predicate IsAsciiAlnum(c: char) {
    IsAsciiLetter(c) || IsAsciiDigit(c)
  }

  /** The class `[a-zA-Z0-9_-]`. */
  predicate IsNameChar(c: char) {
    IsAsciiAlnum(c) || c == '_' || c == '-'
  }

  /** Where the greedy `[a-zA-Z0-9_-]*` starting at `i` stops. */
  function NameRunEnd(s: string, i: nat): (e: nat)
    requires i <= |s|
    ensures i <= e <= |s|
    ensures forall k :: i <= k < e ==> IsNameChar(s[k])
    ensures e == |s| || !IsNameChar(s[e])
    decreases |s| - i
  {
    if i < |s| && IsNameChar(s[i]) then NameRunEnd(s, i + 1) else i
  }

  /**
   * `re.match(r"^[a-zA-Z0-9][a-zA-Z0-9_-]*$", s)`: one letter or digit, the greedy run of
   * name characters, then `$`, which holds at the end of the text and also just before a
   * final newline. Giving back characters of the run cannot help, since `$` never holds
   * before a name character.
   */
  predicate MatchesNamePattern(s: string) {
    && |s| > 0
    && IsAsciiAlnum(s[0])
    && var e := NameRunEnd(s, 1);
       e == |s| || (e == |s| - 1 && s[e] == '\n')
  }

  /**
   * The strings the pattern accepts, position by position: a letter or digit first, then
   * name characters, except that the last character may be a newline.
   */
  predicate NameShape(s: string) {
    && |s| > 0
    && IsAsciiAlnum(s[0])
    && forall i :: 1 <= i < |s| ==> IsNameChar(s[i]) || (i == |s| - 1 && s[i] == '\n')
  }

  /** The matcher accepts exactly the strings of that shape. */
  lemma NamePatternIff(s: string)
    ensures MatchesNamePattern(s) <==> NameShape(s)
  {
    if NameShape(s) {
      var e := NameRunEnd(s, 1);
      if e < |s| {
        assert !IsNameChar(s[e]);
      }
    }
  }

  /** `validate_project_name`: the value itself when accepted, else the error message. */
  function ValidateProjectName(value: string): (r: Result<string, string>)
    ensures r.Success? ==> r.value == value
  {
    if !MatchesNamePattern(value) then Failure(BadCharactersMessage)
    else if value[|value| - 1] == '-' || value[|value| - 1] == '_' then Failure(BadEndingMessage)
    else Success(value)
  }

  /**
   * A name is accepted exactly when it has the shape of the pattern and does not end in
   * a hyphen or underscore; the first check reports a bad shape, the second a bad end.
   */
  lemma ValidateIff(value: string)
    ensures ValidateProjectName(value).Success?
        <==> NameShape(value) && value[|value| - 1] != '-' && value[|value| - 1] != '_'
    ensures ValidateProjectName(value) == Failure(BadCharactersMessage) <==> !NameShape(value)
  {
    NamePatternIff(value);
  }

  /** The empty name, and a name starting with `-` or `_`, are rejected. */
  lemma RejectsBadStart(value: string)
    requires |value| == 0 || value[0] == '-' || value[0] == '_'
    ensures ValidateProjectName(value) == Failure(BadCharactersMessage)
  {
  }

  /** A character outside `[A-Za-z0-9_-]` anywhere but in last place as a newline is rejected. */
  lemma RejectsForeignChar(value: string, i: nat)
    requires i < |value| && !IsNameChar(value[i])
    requires !(i == |value| - 1 && value[i] == '\n')
    ensures ValidateProjectName(value) == Failure(BadCharactersMessage)
  {
    NamePatternIff(value);
  }

  /** A name of the right shape that ends in `-` or `_` gets the second message. */
  lemma RejectsBadEnd(value: string)
    requires NameShape(value) && (value[|value| - 1] == '-' || value[|value| - 1] == '_')
    ensures ValidateProjectName(value) == Failure(BadEndingMessage)
  {
    NamePatternIff(value);
  }

  /**
   * Since `$` also holds before a final newline, and the end check looks at that newline,
   * a name ending in a newline is accepted, even right after a hyphen.
   */
  lemma AcceptsFinalNewline(body: string)
    requires |body| > 0 && IsAsciiAlnum(body[0])
    requires forall i :: 0 <= i < |body| ==> IsNameChar(body[i])
    ensures ValidateProjectName(body + "\n") == Success(body + "\n")
  {
    var s := body + "\n";
    assert forall i :: 1 <= i < |s| - 1 ==> s[i] == body[i];
    NamePatternIff(s);
  }

  /* The names accepted and rejected by the test suite, one lemma each. */

  lemma AcceptsUnderscoreName()
    ensures ValidateProjectName("valid_project_name") == Success("valid_project_name")
  {
    ValidateIff("valid_project_name");
  }

  lemma AcceptsHyphenName()
    ensures ValidateProjectName("valid-project-name") == Success("valid-project-name")
  {
    ValidateIff("valid-project-name");
  }

  lemma AcceptsMixedCaseName()
    ensures ValidateProjectName("validProjectName1234") == Success("validProjectName1234")
  {
    ValidateIff("validProjectName1234");
  }

  lemma RejectsSpaceName()
    ensures ValidateProjectName("invalid project name") == Failure(BadCharactersMessage)
  {
    RejectsForeignChar("invalid project name", 7);
  }

  lemma RejectsLeadingHyphenName()
    ensures ValidateProjectName("-invalid-project-name") == Failure(BadCharactersMessage)
  {
    
  }

  lemma RejectsLeadingUnderscoreName()
    ensures ValidateProjectName("_invalid_project_name") == Failure(BadCharactersMessage)
  {
    
  }

  lemma RejectsTrailingHyphenName()
    ensures ValidateProjectName("invalid_project_name-") == Failure(BadEndingMessage)
  {
    RejectsBadEnd("invalid_project_name-");
  }

  lemma RejectsTrailingUnderscoreName()
    ensures ValidateProjectName("invalid_project_name_") == Failure(BadEndingMessage)
  {
    RejectsBadEnd("invalid_project_name_");
  }

  /* ---------------------------------------------------------------------------------- */
  /* The source package name                                                             */

  /** `value.replace("-", "_")`: every hyphen becomes an underscore, nothing else changes. */
  function SrcName(name: string): (r: string)
    ensures |r| == |name|
    ensures forall i :: 0 <= i < |name| ==> r[i] == if name[i] == '-' then '_' else name[i]
  {
    if |name| == 0 then "" else SrcName(name[..|name| - 1]) + [if name[|name| - 1] == '-' then '_' else name[|name| - 1]]
  }

  /** The source package name has no hyphen, and deriving it again changes nothing. */
  lemma SrcNameNoHyphen(name: string)
    ensures NoChar(SrcName(name), '-')
    ensures SrcName(SrcName(name)) == SrcName(name)
  {
  }

  /** An accepted name gives a package name of letters, digits and underscores (and perhaps a final newline). */
  lemma SrcNameOfValid(name: string)
    requires ValidateProjectName(name).Success?
    ensures var src := SrcName(name);
            forall i :: 0 <= i < |src| ==> IsAsciiAlnum(src[i]) || src[i] == '_' || (i == |src| - 1 && src[i] == '\n')
  {
    ValidateIff(name);
  }

  /** The package name is a given name without hyphens or underscores only when the project name is that name. */
  lemma SrcNameWithoutUnderscore(name: string, target: string)
    requires NoChar(target, '_') && NoChar(target, '-')
    ensures SrcName(name) == target <==> name == target
  {
    if SrcName(name) == target {
      forall i | 0 <= i < |name|
        ensures name[i] == target[i]
      {
        assert SrcName(name)[i] == target[i];
      }
      assert name == target;
    }
  }

  /* ---------------------------------------------------------------------------------- */
  /* create_project                                                                      */

  /** The answers given to the command's prompts. */
  datatype Options = Options(
    name: string,
    description: string,
    author: string,
    pythonVersion: string,
    projectLicense: string,
    pypiPackage: bool,
    logs: bool,
    tests: bool,
    githubAction: bool)

  /** The variables the `pyproject.toml` template is rendered with. */
  datatype RenderVars = RenderVars(
    projectName: string,
    projectDescription: string,
    author: string,
    isPypiPackage: string,
    pythonVersion: string,
    projectLicense: string,
    needTests: bool,
    needLogs: bool,
    projectSrcName: string)

  /**
   * A created project: its directory, the paths made inside it (relative to it), the
   * template variables and the text of `README.md`.
   */
  datatype Project = Project(root: string, paths: set<string>, vars: RenderVars, readme: string)

  /** Why creation stops: a rejected name, or a tree copied onto a directory that exists. */
  datatype CreateError = BadName(message: string) | AlreadyExists(path: string)

  /** The last component of a path, as `Path.name` gives it for a path that does not end in `/`. */
  function FinalComponent(path: string): (r: string)
    ensures NoChar(r, '/')
    decreases |path|
  {
    if |path| == 0 || path[|path| - 1] == '/' then ""
    else FinalComponent(path[..|path| - 1]) + [path[|path| - 1]]
  }

  /** The last component of `dir/name` is `name` when `name` has no slash. */
  lemma {:induction false} FinalComponentJoin(dir: string, name: string)
    requires NoChar(name, '/')
    ensures FinalComponent(dir + "/" + name) == name
    decreases |name|
  {
    var p := dir + "/" + name;
    if |name| == 0 {
      assert p[|p| - 1] == '/';
    } else {
      var init := name[..|name| - 1];
      assert p[..|p| - 1] == dir + "/" + init;
      FinalComponentJoin(dir, init);
      assert init + [name[|name| - 1]] == name;
    }
  }

  /** `shutil.copytree`, which refuses to copy onto a path that already exists. */
  function CopyTree(made: set<string>, target: string): (r: Result<set<string>, CreateError>)
    ensures r.Success? <==> target !in made
    ensures r.Success? ==> r.value == made + {target}
  {
    if target in made then Failure(AlreadyExists(target)) else Success(made + {target})
  }

  /** The paths made before the first tree is copied: the source package and the single files. */
  function StartPaths(src: string): set<string> {
    {src, src + "/__init__.py", ".gitignore", ".pre-commit-config.yaml", ".cz.toml"}
  }

  /** The files rendered from templates once everything else is in place. */
  function RenderedPaths(): set<string> {
    {"pyproject.toml", "README.md"}
  }

  /** The paths that every project gets, whatever the flags. */
  function FixedPaths(src: string): set<string> {
    StartPaths(src) + {"scripts"} + RenderedPaths()
  }

  /** The workflow files copied when a GitHub action is wanted. */
  function GithubPaths(pypiPackage: bool): set<string> {
    {".github", ".github/test.yml", ".github/bumpversion.yml"}
    + (if pypiPackage then {".github/pythonpublish.yml"} else {})
  }

  /**
   * The paths made inside the project directory, in the order of the source: the source
   * package directory `src` with its `__init__.py`, the copied files and trees (the logs
   * package and the tests directory both under the `logs` flag), the workflows, then
   * `pyproject.toml` and `README.md`.
   */
  function CopyPlan(src: string, logs: bool, githubAction: bool, pypiPackage: bool): Result<set<string>, CreateError> {
    var made := StartPaths(src);
    var made :- CopyTree(made, "scripts");
    var made :- if logs then CopyTree(made, src + "/logs") else Success(made);
    var made :- if logs then CopyTree(made, "tests") else Success(made);
    var made := if githubAction then made + GithubPaths(pypiPackage) else made;
    Success(made + RenderedPaths())
  }

  /** A source package name as an accepted project name gives it: it starts with a letter or digit and has no slash. */
  predicate PackageName(src: string) {
    |src| > 0 && IsAsciiAlnum(src[0]) && NoChar(src, '/')
  }

  /**
   * Copying fails exactly when the source package directory is in the way of a tree:
   * `scripts` always, `tests` when logs are wanted.
   */
  lemma CopyPlanFails(src: string, logs: bool, githubAction: bool, pypiPackage: bool)
    requires PackageName(src)
    ensures CopyPlan(src, logs, githubAction, pypiPackage).Failure?
        <==> src == "scripts" || (logs && src == "tests")
  {
    var lp := src + "/logs";
    assert lp != src by {
      assert |lp| != |src|;
    }
    assert lp != "scripts" && lp != "tests" && lp != src + "/__init__.py" by {
      assert lp[|src|] == '/';
      assert lp[|src| + 1] == 'l';
      assert (src + "/__init__.py")[|src| + 1] == '_';
    }
  }

  /** Which paths a successful copy makes apart from the workflows. */
  lemma CopyPlanPaths(src: string, logs: bool, githubAction: bool, pypiPackage: bool)
    requires PackageName(src)
    requires CopyPlan(src, logs, githubAction, pypiPackage).Success?
    ensures var paths := CopyPlan(src, logs, githubAction, pypiPackage).value;
            && FixedPaths(src) <= paths
            && (src + "/logs" in paths <==> logs)
            && ("tests" in paths <==> logs || src == "tests")
  {
    var lp := src + "/logs";
    assert lp[0] == src[0];
    assert lp != src by {
      assert |lp| != |src|;
    }
    assert lp != "scripts" && lp != "tests" && lp != "pyproject.toml" && lp != "README.md"
        && lp != src + "/__init__.py" by {
      assert lp[|src|] == '/';
      assert lp[|src| + 1] == 'l';
      assert (src + "/__init__.py")[|src| + 1] == '_';
    }
  }

  /** The workflows a successful copy makes: two with the GitHub action, a third for a package. */
  lemma CopyPlanWorkflows(src: string, logs: bool, githubAction: bool, pypiPackage: bool)
    requires PackageName(src)
    requires CopyPlan(src, logs, githubAction, pypiPackage).Success?
    ensures var paths := CopyPlan(src, logs, githubAction, pypiPackage).value;
            && (".github/test.yml" in paths <==> githubAction)
            && (".github/bumpversion.yml" in paths <==> githubAction)
            && (".github/pythonpublish.yml" in paths <==> githubAction && pypiPackage)
  {
    assert (src + "/logs")[0] == src[0] && (src + "/__init__.py")[0] == src[0];
  }

  /** The variables `create_project` renders `pyproject.toml` with, for the project at `root`. */
  function Vars(opts: Options, root: string, src: string): RenderVars {
    RenderVars(
      FinalComponent(root),
      opts.description,
      opts.author,
      if opts.pypiPackage then "true" else "false",
      Strip(opts.pythonVersion, c => c == '^'),
      opts.projectLicense,
      opts.tests,
      opts.tests,
      FinalComponent(root + "/" + src))
  }

  /**
   * `create_project` inside the working directory `cwd`: the name is validated, the
   * project directory is `cwd/name`, the paths of `CopyPlan` are made inside it, and
   * `pyproject.toml` and `README.md` are rendered from the final path component.
   */
  function CreateProject(opts: Options, cwd: string): Result<Project, CreateError> {
    var name :- match ValidateProjectName(opts.name)
      case Success(n) => Success(n)
      case Failure(message) => Failure(BadName(message));
    var root := cwd + "/" + name;
    var src := SrcName(name);
    var paths :- CopyPlan(src, opts.logs, opts.githubAction, opts.pypiPackage);
    Success(Project(root, paths, Vars(opts, root, src), "# " + FinalComponent(root) + "\n"))
  }

  /** An accepted name gives a package name fit for `CopyPlan`, with no slash in either. */
  lemma AcceptedNameIsPackageName(name: string)
    requires ValidateProjectName(name).Success?
    ensures NoChar(name, '/') && PackageName(SrcName(name))
  {
    ValidateIff(name);
    var src := SrcName(name);
    assert forall i :: 0 <= i < |src| ==> src[i] != '/';
  }

  /**
   * Creation fails exactly when the name is rejected, or when the source package takes
   * the name of a tree copied later: `scripts` always, `tests` when logs are wanted.
   */
  lemma CreateFails(opts: Options, cwd: string)
    ensures CreateProject(opts, cwd).Failure?
        <==> || ValidateProjectName(opts.name).Failure?
             || opts.name == "scripts"
             || (opts.logs && opts.name == "tests")
  {
    if ValidateProjectName(opts.name).Success? {
      AcceptedNameIsPackageName(opts.name);
      SrcNameWithoutUnderscore(opts.name, "scripts");
      SrcNameWithoutUnderscore(opts.name, "tests");
      CopyPlanFails(SrcName(opts.name), opts.logs, opts.githubAction, opts.pypiPackage);
    }
  }

  /** A created project holds the paths of `CopyPlan` for its package name and flags. */
  lemma CreatedPaths(opts: Options, cwd: string)
    requires CreateProject(opts, cwd).Success?
    ensures ValidateProjectName(opts.name).Success?
    ensures CreateProject(opts, cwd).value.paths
         == CopyPlan(SrcName(opts.name), opts.logs, opts.githubAction, opts.pypiPackage).value
  {
  }

  /** The template variables of a created project. */
  lemma CreatedVars(opts: Options, cwd: string)
    requires CreateProject(opts, cwd).Success?
    ensures var p := CreateProject(opts, cwd).value;
            && p.root == cwd + "/" + opts.name
            && p.vars.projectName == opts.name
            && p.vars.projectSrcName == SrcName(opts.name)
            && p.vars.isPypiPackage == (if opts.pypiPackage then "true" else "false")
            && p.vars.pythonVersion == Strip(opts.pythonVersion, c => c == '^')
            && p.vars.needTests == opts.tests
            && p.vars.needLogs == opts.tests
            && p.vars.projectDescription == opts.description
            && p.vars.author == opts.author
            && p.vars.projectLicense == opts.projectLicense
            && p.readme == "# " + opts.name + "\n"
  {
    AcceptedNameIsPackageName(opts.name);
    FinalComponentJoin(cwd, opts.name);
    FinalComponentJoin(cwd + "/" + opts.name, SrcName(opts.name));
  }

  /** The `tests` flag changes only template variables, never the paths made. */
  lemma TestsFlagOnlyRenders(opts: Options, cwd: string, tests: bool)
    ensures var other := CreateProject(opts.(tests := tests), cwd);
            var base := CreateProject(opts, cwd);
            && (other.Success? <==> base.Success?)
            && (base.Success? ==> other.value.paths == base.value.paths)
  {
  }
}
