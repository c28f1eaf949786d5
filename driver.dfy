/**
 * The job driver: decides from the parsed command line whether to print
 * usage, refuse, or configure and submit the map-only classification job,
 * and cleans up the output when the job fails.
 */
module Driver {
  import opened Wrappers
  import opened Framework
  import Mapper

  /** The parsed command line: the help flag and the three options' values. */
  datatype CommandLine = CommandLine(help: bool, input: Option<string>, output: Option<string>, model: Option<string>)

  /** What is submitted: input and output paths, the job configuration and the number of reducers. */
  datatype JobSpec = JobSpec(input: string, output: string, conf: JobConf, numReduceTasks: nat)

  /** Errors that escape `run`. */
  datatype RunError =
    | NullCommandLine // a parse error leaves the command line null, which the driver then dereferences
    | EmptyPath       // an input or output path given as the empty string cannot be made a path

  /** How `run` ends: a returned status, or an error thrown out of it. */
  datatype RunResult =
    | Returned(status: int, submitted: Option<JobSpec>, outputDeleted: bool)
    | Threw(error: RunError)

  /**
   * `run`: the help flag is tested before the required options and returns
   * 0; a missing input, output or model returns -1; an empty input or output
   * path throws before anything is submitted; otherwise the job is configured
   * with the model path and no reducers, submitted, and on failure its output
   * is deleted; either way the status is 0. Nothing is submitted on the other
   * paths.
   */
  method Run(parsed: Result<CommandLine, string>, conf: JobConf, jobSucceeded: bool) returns (r: RunResult)
    ensures parsed.Failure? <==> r == Threw(NullCommandLine)
    ensures parsed.Success? && parsed.value.help ==> r == Returned(0, None, false)
    ensures parsed.Success? && !parsed.value.help
      && (parsed.value.input.None? || parsed.value.output.None? || parsed.value.model.None?)
      ==> r == Returned(-1, None, false)
    ensures parsed.Success? && !parsed.value.help
      && parsed.value.input.Some? && parsed.value.output.Some? && parsed.value.model.Some?
      && (parsed.value.input.value == "" || parsed.value.output.value == "")
      ==> r == Threw(EmptyPath)
    ensures parsed.Success? && !parsed.value.help
      && parsed.value.input.Some? && parsed.value.output.Some? && parsed.value.model.Some?
      && parsed.value.input.value != "" && parsed.value.output.value != ""
      ==> && r.Returned? && r.status == 0
          && r.submitted == Some(JobSpec(parsed.value.input.value, parsed.value.output.value,
                                         conf[Mapper.ModelNameParam := parsed.value.model.value], 0))
          && r.outputDeleted == !jobSucceeded
    ensures r.Returned? && r.outputDeleted ==> r.submitted.Some?
  {
    if parsed.Failure? {
      // usage is printed, then execution falls through to a null command line
      return Threw(NullCommandLine);
    }
    var line := parsed.value;
    if line.help {
      return Returned(0, None, false);
    }
    if line.model.None? || line.input.None? || line.output.None? {
      return Returned(-1, None, false);
    }
    if line.input.value == "" || line.output.value == "" {
      // the input and output paths are built outside any handler
      return Threw(EmptyPath);
    }
    var job := JobSpec(line.input.value, line.output.value, conf[Mapper.ModelNameParam := line.model.value], 0);
    var deleted := false;
    if !jobSucceeded {
      // best-effort cleanup of partial output
      deleted := true;
    }
    return Returned(0, Some(job), deleted);
  }

  /**
   * A worker of a submitted job reads back the model path the driver set,
   * and in local mode (no archive list) loads the model from that path.
   */
  lemma WorkerSeesDriverModel(line: CommandLine, conf: JobConf, job: JobSpec,
                              getClassifier: string -> Result<Mapper.TextClassifier, string>)
    requires !line.help && line.input.Some? && line.output.Some? && line.model.Some?
    requires job == JobSpec(line.input.value, line.output.value, conf[Mapper.ModelNameParam := line.model.value], 0)
    ensures GetOrNull(job.conf, Mapper.ModelNameParam) == line.model
    ensures Mapper.LoadModel(GetOrNull(job.conf, Mapper.ModelNameParam), None, getClassifier) ==
      match getClassifier(line.model.value)
      case Success(c) => Success(c)
      case Failure(e) => Failure(Mapper.LoadFailed(e))
  {
  }
}
