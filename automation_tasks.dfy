/**
 * The command-line front of `automation_tasks_rs`: the first argument after the
 * program name picks a task, help or shell completion.  Task bodies (shell
 * commands) are not modelled; a task that runs is recorded as a step.
 */
module AutomationTasks {
  import opened Wrappers

  /** The user-defined tasks the dispatcher can call; only `commit_and_push` takes an argument. */
  datatype Task =
    | Build
    | Release
    | Doc
    | Test
    | CommitAndPush(message: Option<string>)
    | PublishToWeb
    | GithubNewRelease

  /** What `completion` does with the process arguments. */
  datatype CompletionOutcome =
    | IndexOutOfBounds                                           // fewer than four arguments: indexing panics
    | Offer(subCommands: seq<string>, wordBeingCompleted: string)  // handed to the completion helper
    | NoOffer

  /** One observable step of a dispatch, in the order the code performs them. */
  datatype Step =
    | PrintHelp
    | Banner(word: string)        // "Running automation task: <word>"
    | Run(task: Task)
    | UnknownTask(word: string)   // "Error: Task <word> is unknown." on standard error
    | Complete(outcome: CompletionOutcome)

  /** The sub-commands shell completion offers after `cargo auto`. */
  const SubCommands := [
    "build", "release", "doc", "test", "commit_and_push",
    "publish_to_web", "github_new_release", "update_automation_tasks_rs"
  ]

  /** The command-line word of each task. */
  function Name(t: Task): string
  {
    match t
    case Build => "build"
    case Release => "release"
    case Doc => "doc"
    case Test => "test"
    case CommitAndPush(_) => "commit_and_push"
    case PublishToWeb => "publish_to_web"
    case GithubNewRelease => "github_new_release"
  }

  /**
   * `completion` over all process arguments (word 0 is the program): it needs at least
   * four, and it offers the fixed sub-command list, for word 2, exactly when word 3 is
   * "cargo-auto" or "auto".
   */
  function Completion(process: seq<string>): (c: CompletionOutcome)
    ensures c.IndexOutOfBounds? <==> |process| < 4
    ensures c.Offer? <==> |process| >= 4 && (process[3] == "cargo-auto" || process[3] == "auto")
    ensures c.Offer? ==> c.subCommands == SubCommands && c.wordBeingCompleted == process[2]
  {
    if |process| < 4 then IndexOutOfBounds
    else
      var wordBeingCompleted, lastWord := process[2], process[3];
      if lastWord == "cargo-auto" || lastWord == "auto" then Offer(SubCommands, wordBeingCompleted)
      else NoOffer
  }

  /**
   * `match_arguments_and_call_tasks` on the arguments still in the iterator (`rest`);
   * `process` is the whole argument list, which `completion` reads afresh.
   */
  function TaskSteps(process: seq<string>, rest: seq<string>): (steps: seq<Step>)
    ensures rest == [] <==> steps == [PrintHelp]
    ensures rest != [] && rest[0] == "completion" ==> steps == [Complete(Completion(process))]
    ensures rest != [] && rest[0] != "completion" ==> |steps| >= 2 && steps[0] == Banner(rest[0])
  {
    if rest == [] then [PrintHelp]
    else
      var task := rest[0];
      if task == "completion" then [Complete(Completion(process))]
      else
        [Banner(task)] +
        if task == "build" then [Run(Build)]
        else if task == "release" then [Run(Release)]
        else if task == "doc" then [Run(Doc)]
        else if task == "test" then [Run(Test)]
        else if task == "commit_and_push" then [Run(CommitAndPush(if |rest| > 1 then Some(rest[1]) else None))]
        else if task == "publish_to_web" then [Run(PublishToWeb)]
        else if task == "github_new_release" then [Run(GithubNewRelease)]
        else [UnknownTask(task), PrintHelp]
  }

  /** How many arguments the dispatch takes from the iterator. */
  function Consumed(rest: seq<string>): nat
  {
    if rest == [] then 0
    else if rest[0] == "commit_and_push" && |rest| > 1 then 2
    else 1
  }

  /** `std::env::Args`: the process arguments and how far `next()` has got. */
  class ArgsIterator {
    const items: seq<string>
    var cursor: nat

    ghost predicate Valid()
      reads this
    {
      cursor <= |items|
    }

    /** The arguments `next()` has not returned yet. */
    function Remaining(): seq<string>
      reads this
      requires Valid()
    {
      items[cursor..]
    }

    constructor (items: seq<string>)
      ensures Valid() && this.items == items && Remaining() == items
    {
      this.items := items;
      cursor := 0;
    }

    /** `next()`: the first remaining argument, consumed; `None` once there is none left. */
    method Next() returns (arg: Option<string>)
      requires Valid()
      modifies this
      ensures Valid()
      ensures old(Remaining()) == [] ==> arg == None && Remaining() == []
      ensures old(Remaining()) != [] ==> arg == Some(old(Remaining())[0]) && Remaining() == old(Remaining())[1..]
    {
      if cursor < |items| {
        arg := Some(items[cursor]);
        cursor := cursor + 1;
      } else {
        arg := None;
      }
    }
  }

  /**
   * `match_arguments_and_call_tasks`: reads the task word from the iterator, and a second
   * word only for `commit_and_push`.
   */
  method MatchArgumentsAndCallTasks(args: ArgsIterator) returns (steps: seq<Step>)
    requires args.Valid()
    modifies args
    ensures args.Valid()
    ensures steps == TaskSteps(args.items, old(args.Remaining()))
    ensures args.Remaining() == old(args.Remaining())[Consumed(old(args.Remaining()))..]
  {
    ghost var rest := args.Remaining();
    var arg1 := args.Next();
    match arg1
    case None =>
      steps := [PrintHelp];
    case Some(task) =>
      if task == "completion" {
        steps := [Complete(Completion(args.items))];
      } else {
        steps := [Banner(task)];
        if task == "build" {
          steps := steps + [Run(Build)];
        } else if task == "release" {
          steps := steps + [Run(Release)];
        } else if task == "doc" {
          steps := steps + [Run(Doc)];
        } else if task == "test" {
          steps := steps + [Run(Test)];
        } else if task == "commit_and_push" {
          var arg2 := args.Next();
          steps := steps + [Run(CommitAndPush(arg2))];
        } else if task == "publish_to_web" {
          steps := steps + [Run(PublishToWeb)];
        } else if task == "github_new_release" {
          steps := steps + [Run(GithubNewRelease)];
        } else {
          steps := steps + [UnknownTask(task), PrintHelp];
        }
      }
  }

  /** `main` past its setup: skip the program name, then dispatch. */
  method RunAutomation(process: seq<string>) returns (steps: seq<Step>)
    ensures steps == TaskSteps(process, if process == [] then [] else process[1..])
  {
    var args := new ArgsIterator(process);
    var arg0 := args.Next();
    steps := MatchArgumentsAndCallTasks(args);
  }

  /**
   * Each task runs exactly when the first word is its name, and `commit_and_push` gets
   * the second word, or `None` when there is none.
   */
  lemma RunsExactlyNamedTask(process: seq<string>, rest: seq<string>, t: Task)
    ensures Run(t) in TaskSteps(process, rest) <==>
      rest != [] && rest[0] == Name(t) &&
      (t.CommitAndPush? ==> t.message == (if |rest| > 1 then Some(rest[1]) else None))
  {
  }

  /** A known task word prints the banner and runs that task, and nothing else: no error, no help. */
  lemma KnownTaskRunsOnly(process: seq<string>, rest: seq<string>, t: Task)
    requires rest != [] && rest[0] == Name(t)
    requires t.CommitAndPush? ==> t.message == (if |rest| > 1 then Some(rest[1]) else None)
    ensures TaskSteps(process, rest) == [Banner(rest[0]), Run(t)]
  {
  }

  /** At most one task runs per dispatch. */
  lemma RunsAtMostOneTask(process: seq<string>, rest: seq<string>)
    ensures forall i, j :: 0 <= i < j < |TaskSteps(process, rest)| ==>
      !(TaskSteps(process, rest)[i].Run? && TaskSteps(process, rest)[j].Run?)
  {
  }

  /** An unknown word prints the banner, the error and then help, and no task runs. */
  lemma UnknownTaskPrintsHelp(process: seq<string>, rest: seq<string>)
    requires rest != [] && rest[0] != "completion"
    requires forall t: Task :: rest[0] != Name(t)
    ensures TaskSteps(process, rest) == [Banner(rest[0]), UnknownTask(rest[0]), PrintHelp]
  {
    assert rest[0] != Name(Build) && rest[0] != Name(Release) && rest[0] != Name(Doc) && rest[0] != Name(Test);
    assert rest[0] != Name(CommitAndPush(None)) && rest[0] != Name(PublishToWeb) && rest[0] != Name(GithubNewRelease);
  }

  /**
   * Every sub-command completion offers is a task the dispatcher runs, except
   * `update_automation_tasks_rs`, which it reports as unknown.
   */
  lemma OfferedSubCommands(process: seq<string>, rest: seq<string>, i: nat)
    requires i < |SubCommands|
    ensures SubCommands[i] != "update_automation_tasks_rs" ==>
      exists t: Task :: Name(t) == SubCommands[i] && Run(t) in TaskSteps(process, [SubCommands[i]] + rest)
    ensures SubCommands[i] == "update_automation_tasks_rs" ==>
      TaskSteps(process, [SubCommands[i]] + rest)
        == [Banner(SubCommands[i]), UnknownTask(SubCommands[i]), PrintHelp]
  {
  }

  /** Only `commit_and_push` takes a second word from the iterator, and only when there is one. */
  lemma OnlyCommitConsumesSecond(rest: seq<string>)
    requires rest != []
    ensures Consumed(rest) == 2 <==> rest[0] == "commit_and_push" && |rest| >= 2
    ensures Consumed(rest) == 1 <==> !(rest[0] == "commit_and_push" && |rest| >= 2)
  {
  }
}
