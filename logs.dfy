/**
 * The logging template's module configuration, its filter `default_filter` and the sink
 * settings chosen when the module is loaded.
 */
module Logs {
  import opened Wrappers
  import opened Redaction

  /** `LOG_LEVEL` holds either a level name or a severity number. */
  datatype LevelSpec = Named(name: string) | Number(no: int)

  /** The module-level settings `LOG_LEVEL`, `LOG_SENSITIZE_KEYS` and `PROJECT_NAME`. */
  datatype Config = Config(logLevel: LevelSpec, sensitizeKeys: seq<string>, projectName: string)

  /** The settings as the template ships them. */
  const DefaultConfig := Config(Named("INFO"), ["Cookie"], "<set project name>")

  /** The severity numbers of the logger's built-in levels, by name. */
  const StandardLevels: map<string, int> :=
    map["TRACE" := 5, "DEBUG" := 10, "INFO" := 20, "SUCCESS" := 25,
        "WARNING" := 30, "ERROR" := 40, "CRITICAL" := 50]

  /** The keywords the pattern reads as literal text. */
  predicate PlainKeys(config: Config) {
    forall i :: 0 <= i < |config.sensitizeKeys| ==> IsPlainKeyword(config.sensitizeKeys[i])
  }

  /**
   * The severity threshold: a level name is looked up among the logger's levels, which
   * fails for a name it does not know; a number is used as it is.
   */
  function Threshold(spec: LevelSpec, levels: map<string, int>): (r: Result<int, string>)
    ensures spec.Number? ==> r == Success(spec.no)
    ensures spec.Named? ==> (r.Success? <==> spec.name in levels)
    ensures spec.Named? && r.Success? ==> r.value == levels[spec.name]
  {
    match spec
    case Number(n) => Success(n)
    case Named(name) =>
      if name in levels then Success(levels[name]) else Failure("Level '" + name + "' does not exist")
  }

  /** What the filter answers for a record of severity `levelNo`, or the failed lookup. */
  function Admits(config: Config, levels: map<string, int>, levelNo: int): Result<bool, string> {
    var t :- Threshold(config.logLevel, levels);
    Success(levelNo >= t)
  }

  /** The message the filter leaves in the record: redacted when there are keywords. */
  function FilteredMessage(config: Config, message: string): (r: string)
    ensures |config.sensitizeKeys| == 0 ==> r == message
  {
    if |config.sensitizeKeys| > 0 then DesensitizeAll(message, config.sensitizeKeys) else message
  }

  /** A log record; the filter may rewrite its message and nothing else. */
  class LogRecord {
    var message: string
    var levelNo: int

    constructor(message: string, levelNo: int)
      ensures this.message == message && this.levelNo == levelNo
    {
      this.message := message;
      this.levelNo := levelNo;
    }
  }

  /**
   * `default_filter`: the threshold is looked up first, then the message is redacted in
   * place when there are keywords, then the severity is compared with the threshold. A
   * failed lookup stops the filter before the message is touched.
   */
  method DefaultFilter(config: Config, levels: map<string, int>, record: LogRecord) returns (r: Result<bool, string>)
    requires PlainKeys(config)
    modifies record`message
    ensures r == Admits(config, levels, record.levelNo)
    ensures record.message == if r.Success? then FilteredMessage(config, old(record.message)) else old(record.message)
  {
    var threshold := Threshold(config.logLevel, levels);
    if threshold.Failure? {
      return Failure(threshold.error);
    }
    if |config.sensitizeKeys| > 0 {
      record.message := DesensitizeData(record.message, config.sensitizeKeys);
    }
    return Success(record.levelNo >= threshold.value);
  }

  /** Whether the filter admits a record is monotone in the record's severity. */
  lemma AdmitsMonotone(config: Config, levels: map<string, int>, low: int, high: int)
    requires low <= high
    requires Admits(config, levels, low) == Success(true)
    ensures Admits(config, levels, high) == Success(true)
  {
  }

  /**
   * When the level resolves to `t`, the filter admits exactly the severities from `t` up:
   * a record at the threshold passes and one just below it does not.
   */
  lemma AdmitsFromThreshold(config: Config, levels: map<string, int>, t: int, levelNo: int)
    requires Threshold(config.logLevel, levels) == Success(t)
    ensures Admits(config, levels, levelNo) == Success(levelNo >= t)
    ensures Admits(config, levels, t) == Success(true) && Admits(config, levels, t - 1) == Success(false)
  {
  }

  /** The filter fails exactly when the level is a name the logger does not know. */
  lemma AdmitsFails(config: Config, levels: map<string, int>, levelNo: int)
    ensures Admits(config, levels, levelNo).Failure?
        <==> config.logLevel.Named? && config.logLevel.name !in levels
  {
  }

  /** With the shipped settings, INFO records and above pass and DEBUG records do not. */
  lemma DefaultThreshold(levelNo: int)
    ensures Admits(DefaultConfig, StandardLevels, levelNo) == Success(levelNo >= 20)
    ensures Admits(DefaultConfig, StandardLevels, StandardLevels["INFO"]) == Success(true)
    ensures Admits(DefaultConfig, StandardLevels, StandardLevels["DEBUG"]) == Success(false)
  {
    assert "INFO" in StandardLevels;
  }

  /* ---------------------------------------------------------------------------------- */
  /* The sink added when the module is loaded                                            */

  /**
   * A piece of a log format: literal text (colour markup included) or a placeholder, which
   * the format string writes as `{field}`.
   */
  datatype Piece = Text(text: string) | Field(field: string)

  /** The format used at level DEBUG: it shows the module name, function and line. */
  const DebugFormat: seq<Piece> :=
    [Text("<g>"), Field("time:MM-DD HH:mm:ss"), Text("</g> "),
     Text("[<lvl>"), Field("level"), Text("</lvl>] "),
     Text("<c><u>"), Field("name"), Text("</u></c> | "),
     Text("<c>"), Field("function"), Text(":"), Field("line"), Text("</c> | "),
     Field("message")]

  /** The format used otherwise: the project name stands where the module name would. */
  function ProjectFormat(projectName: string): (r: seq<Piece>)
    ensures Field("level") in r && Field("message") in r
    ensures Field("name") !in r && Field("function") !in r && Field("line") !in r
  {
    [Text("<g>"), Field("time:MM-DD HH:mm:ss"), Text("</g> "),
     Text("[<lvl>"), Field("level"), Text("</lvl>] "),
     Text("<c><u>" + projectName + "</u></c> | "),
     Field("message")]
  }

  /** The settings of the sink the module adds, with the filter `default_filter`. */
  datatype SinkSettings = SinkSettings(level: int, diagnose: bool, backtrace: bool, format: seq<Piece>)

  /**
   * The choice made at module load: only the level name "DEBUG" turns on diagnose and
   * backtrace and selects the detailed format; any other name, and any number, does not.
   */
  function SinkFor(config: Config): (sink: SinkSettings)
    ensures sink.level == 0
  {
    if config.logLevel == Named("DEBUG") then SinkSettings(0, true, true, DebugFormat)
    else SinkSettings(0, false, false, ProjectFormat(config.projectName))
  }

  /** The two formats differ in the fields they mention and in where the project name goes. */
  lemma SinkForDebug(config: Config)
    ensures var sink := SinkFor(config);
            && (sink.diagnose <==> config.logLevel == Named("DEBUG"))
            && (sink.backtrace <==> config.logLevel == Named("DEBUG"))
            && (Field("name") in sink.format <==> config.logLevel == Named("DEBUG"))
            && (Field("function") in sink.format <==> config.logLevel == Named("DEBUG"))
            && (Field("line") in sink.format <==> config.logLevel == Named("DEBUG"))
            && Field("level") in sink.format && Field("message") in sink.format
            && (config.logLevel != Named("DEBUG") ==>
                  Text("<c><u>" + config.projectName + "</u></c> | ") in sink.format)
  {
    var p := ProjectFormat(config.projectName);
    assert p[4] == Field("level") && p[7] == Field("message");
    assert DebugFormat[4] == Field("level") && DebugFormat[14] == Field("message");
    assert DebugFormat[7] == Field("name") && DebugFormat[10] == Field("function") && DebugFormat[12] == Field("line");
  }

  /** Severity 10 given as a number is not the name "DEBUG": the compact format is used. */
  lemma NumericDebugIsNotDebug(name: string)
    ensures !SinkFor(Config(Number(10), [], name)).diagnose
    ensures SinkFor(Config(Number(10), [], name)).format == ProjectFormat(name)
  {
  }

  /** Whether a sink writes a record: its level is reached and its filter admits it. */
  predicate Writes(sink: SinkSettings, levelNo: int, admitted: bool) {
    levelNo >= sink.level && admitted
  }

  /** The sink sits at level 0, so for any valid (non-negative) severity the filter alone decides. */
  lemma FilterAloneGates(config: Config, levelNo: int, admitted: bool)
    requires levelNo >= 0
    ensures Writes(SinkFor(config), levelNo, admitted) <==> admitted
  {
  }
}
