/** The command line of a conversion: one argument vector, overwritten in place for every job. */
module ConvertConfig {
  import opened ConvertQueue

  const COMMAND: string := "/bin/ffmpeg"
  const INPUT_INDEX: nat := 3

  /** The vector that a job needs: the template with its input and its manifest, and nothing else. */
  function Filled(template: seq<string>, input: string, outdir: string): (args: seq<string>)
    requires |template| > INPUT_INDEX + 1
    ensures |args| == |template|
    ensures args[INPUT_INDEX] == input && args[|args| - 1] == outdir + "/manifest.mpd"
    ensures forall k | 0 <= k < |args| - 1 && k != INPUT_INDEX :: args[k] == template[k]
  {
    template[INPUT_INDEX := input][|template| - 1 := outdir + "/manifest.mpd"]
  }

  class ArgumentVector {
    const args: array<string>
    ghost const template: seq<string>

    constructor (template: seq<string>)
      requires |template| > INPUT_INDEX + 1
      ensures Valid() && this.template == template && fresh(args) && args[..] == template
    {
      this.template := template;
      args := new string[|template|](i requires 0 <= i < |template| => template[i]);
      new;
      assert args[..] == template;
    }

    /** Only the input and the last entry ever differ from the template. */
    ghost predicate Valid()
      reads args
    {
      && args.Length == |template| > INPUT_INDEX + 1
      && forall k | 0 <= k < args.Length - 1 && k != INPUT_INDEX :: args[k] == template[k]
    }

    /** Whatever jobs came before, the vector passed on is the template filled in for this job. */
    method Apply(input: string, output: string) returns (command: string, result: seq<string>)
      requires Valid()
      modifies args
      ensures Valid() && command == COMMAND
      ensures result == Filled(template, input, output) && args[..] == result
    {
      args[INPUT_INDEX] := input;
      args[args.Length - 1] := output + "/manifest.mpd";
      command, result := COMMAND, args[..];
    }
  }

  /** filename.substr(0, filename.find_last_of('.')): everything before the last dot, or all of it. */
  function Stem(s: string): (t: string)
    ensures t <= s
    ensures '.' !in s ==> t == s
    ensures '.' in s ==> |t| < |s| && s[|t|] == '.' && '.' !in s[|t| + 1..]
    decreases |s|
  {
    StemFrom(s, |s|)
  }

  function StemFrom(s: string, k: nat): (t: string)
    requires k <= |s| && '.' !in s[k..]
    ensures t <= s
    ensures '.' !in s ==> t == s
    ensures '.' in s ==> |t| < |s| && s[|t|] == '.' && '.' !in s[|t| + 1..]
  {
    if k == 0 then assert s[0..] == s; s
    else if s[k - 1] == '.' then s[..k - 1]
    else assert s[k - 1..] == [s[k - 1]] + s[k..]; StemFrom(s, k - 1)
  }

  function OutputDirectory(workDir: string, job: Job): string {
    workDir + "/" + Stem(job.filename)
  }

  /** The arguments of the conversion of a job, from the template alone: a long list of encoder options of which only
      the length matters here. The input is the finished file of the job, the last argument the manifest inside the
      job's own directory. */
  function ArgumentsOf(template: seq<string>, workDir: string, job: Job): (args: seq<string>)
    requires |template| > 4
    ensures |args| == |template|
    ensures args[3] == job.path + "/" + job.filename
    ensures args[|args| - 1] == workDir + "/" + Stem(job.filename) + "/manifest.mpd"
    ensures forall k | 0 <= k < |args| - 1 && k != 3 :: args[k] == template[k]
  {
    Filled(template, job.path + "/" + job.filename, OutputDirectory(workDir, job))
  }

  datatype Execution = Execution(command: string, args: seq<string>)

  /** The part of the controller that runs a job; processes started are recorded, not awaited. */
  class Converter {
    const workDir: string
    const config: ArgumentVector
    var directories: set<string>
    var executions: seq<Execution>

    constructor (workDir: string, config: ArgumentVector)
      requires config.Valid()
      ensures this.workDir == workDir && this.config == config && Valid()
      ensures directories == {} && executions == []
    {
      this.workDir, this.config := workDir, config;
      directories, executions := {}, [];
    }

    ghost predicate Valid()
      reads config.args
    {
      config.Valid()
    }

    /** Runs one job: its directory is made, and the process that is started reads the finished file and writes its
        manifest into that directory. */
    method Convertion(job: Job)
      requires Valid()
      modifies this, config.args
      ensures Valid()
      ensures directories == old(directories) + {workDir + "/" + Stem(job.filename)}
      ensures |executions| == |old(executions)| + 1
      ensures var e := executions[|executions| - 1];
              && e.command == "/bin/ffmpeg" && |e.args| == |config.template|
              && e.args[3] == job.path + "/" + job.filename
              && e.args[|e.args| - 1] == workDir + "/" + Stem(job.filename) + "/manifest.mpd"
      ensures executions == old(executions) + [Execution(COMMAND, ArgumentsOf(config.template, workDir, job))]
      ensures directories == old(directories) + {OutputDirectory(workDir, job)}
    {
      var source := job.path + "/";
      source := source + job.filename;
      var outdir := workDir + "/" + Stem(job.filename);
      directories := directories + {outdir};
      var command, args := config.Apply(source, outdir);
      executions := executions + [Execution(command, args)];
    }

    /** Any sequence of jobs: each execution depends on its own job only. */
    method ConvertAll(jobs: seq<Job>)
      requires Valid()
      modifies this, config.args
      ensures Valid() && |executions| == |old(executions)| + |jobs|
      ensures executions[..|old(executions)|] == old(executions)
      ensures forall k | 0 <= k < |jobs| ::
                executions[|old(executions)| + k] ==
                Execution(COMMAND, ArgumentsOf(config.template, workDir, jobs[k]))
    {
      ghost var n := |executions|;
      for i := 0 to |jobs|
        invariant Valid() && |executions| == n + i
        invariant executions[..n] == old(executions)
        invariant forall k | 0 <= k < i ::
                    executions[n + k] == Execution(COMMAND, ArgumentsOf(config.template, workDir, jobs[k]))
      {
        Convertion(jobs[i]);
      }
    }
  }
}
