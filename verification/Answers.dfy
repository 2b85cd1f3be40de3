/** What a `run` comes to, said of exit codes and printed text: the guard of init, the sandbox image, every other command. */
module Answers {
  import opened Wrappers
  import opened Text
  import opened CommandLine
  import opened KubeToolbox

  /** A command ends in failure, whatever it printed, unless it is exit code 1 with "taint" on standard error. */
  ghost predicate Fails(o: Outcome) {
    o.code !in {0, 1} || (o.code == 1 && forall a, b :: o.stderr != a + "taint" + b)
  }

  /** `kubectl cluster-info` did not fail and reports a running control plane. */
  ghost predicate Running(info: Outcome) {
    !Fails(info) && exists a, b :: info.stdout == a + "is running at" + b
  }

  lemma {:induction false} FailsMeans(o: Outcome)
    ensures if Fails(o) then RunResult(o).Err? else RunResult(o) == Ok(o.stdout)
  {
    ContainsMeans(o.stderr, "taint");
  }

  lemma {:induction false} RunningMeans(info: Outcome)
    ensures Running(info) <==> ClusterExists(true, info) == Ok(true)
    ensures Fails(info) <==> ClusterExists(true, info).Err?
  {
    FailsMeans(info);
    ContainsMeans(info.stdout, "is running at");
  }

  // ---- Every command but init and config

  lemma {:induction false} OtherKinds(name: string, args: string)
    requires name != "kubeadm" || !("init" <= args || "config" <= args)
    ensures !Classify(name, args).Bootstrap? && !Classify(name, args).Sandbox?
  {
  }

  /** A join, reset, apply or taint always runs; it raises exactly on failure, and reports a change unless it is an apply. */
  lemma {:induction false} OtherCommandRuns(name: string, args: string, line: string, adminConf: bool, answers: seq<Outcome>)
    requires (name != "kubeadm" || !("init" <= args || "config" <= args)) && answers != []
    ensures RunCommands(Classify(name, args), Ok(line), adminConf, answers) == [line]
    ensures var plan := RunPlan(Classify(name, args), "apply" <= args, Ok(line), adminConf, answers);
            if Fails(answers[0]) then plan.Err? else plan.Ok? && Leaves(plan.value, !("apply" <= args), answers[0].stdout)
  {
    OtherKinds(name, args);
    FailsMeans(answers[0]);
    CommandOfOther(Classify(name, args), line, adminConf, answers);
    ExecutedLeaves(answers[0].stdout, "apply" <= args);
    PlanOfOther(Classify(name, args), "apply" <= args, line, adminConf, answers);
  }

  /** The module reports this change, and `kube_result` is all it records. */
  ghost predicate Leaves(effect: RunEffect, changed: bool, output: string) {
    effect.Changes() == changed && forall r :: effect.Record(r) == r.(output := Some(output))
  }

  lemma {:induction false} CommandOfOther(kind: Kind, line: string, adminConf: bool, answers: seq<Outcome>)
    requires !kind.Bootstrap?
    ensures RunCommands(kind, Ok(line), adminConf, answers) == [line]
  {
  }

  lemma {:induction false} PlanOfOther(kind: Kind, isApply: bool, line: string, adminConf: bool, answers: seq<Outcome>)
    requires !kind.Bootstrap? && !kind.Sandbox? && answers != []
    ensures var o := RunResult(answers[0]);
            RunPlan(kind, isApply, Ok(line), adminConf, answers) == if o.Err? then Err(o.error) else Ok(Executed(o.value, isApply))
  {
  }

  lemma {:induction false} ExecutedLeaves(output: string, isApply: bool)
    ensures Leaves(Executed(output, isApply), !isApply, output)
  {
  }

  // ---- init

  lemma {:induction false} InitKind(args: string)
    requires "init" <= args
    ensures Classify("kubeadm", args) == Bootstrap
  {
  }

  /** Without admin.conf nothing is asked: kubeadm runs, and its answer decides. */
  lemma {:induction false} FirstInitRuns(args: string, isApply: bool, line: string, answers: seq<Outcome>)
    requires "init" <= args && answers != []
    ensures var kind := Classify("kubeadm", args);
            var plan := RunPlan(kind, isApply, Ok(line), false, answers);
            && RunCommands(kind, Ok(line), false, answers) == [line]
            && (plan.Err? <==> Fails(answers[0]))
            && (plan.Ok? ==> plan.value.Changes() && forall r :: plan.value.Record(r) == r.(bootstrapped := Some(answers[0].stdout)))
  {
    InitKind(args);
    FailsMeans(answers[0]);
  }

  /**
   The guard of init: with admin.conf, kubeadm is only issued when `kubectl cluster-info` succeeds and does not print
   "is running at"; a running cluster is left alone, and a failing answer raises.
   */
  lemma {:induction false} InitIsGuarded(args: string, isApply: bool, line: string, answers: seq<Outcome>)
    requires "init" <= args && |answers| >= 2
    ensures var kind := Classify("kubeadm", args);
            var plan := RunPlan(kind, isApply, Ok(line), true, answers);
            var issued := RunCommands(kind, Ok(line), true, answers);
            if Fails(answers[0]) then plan.Err? && issued == ["kubectl cluster-info"]
            else if Running(answers[0]) then
              && plan.Ok? && !plan.value.Changes() && (forall r :: plan.value.Record(r) == r)
              && issued == ["kubectl cluster-info"]
            else
              && issued == ["kubectl cluster-info", line] && (plan.Err? <==> Fails(answers[1]))
              && (plan.Ok? ==> plan.value.Changes() && forall r :: plan.value.Record(r) == r.(bootstrapped := Some(answers[1].stdout)))
  {
    InitKind(args);
    FailsMeans(answers[0]);
    FailsMeans(answers[1]);
    RunningMeans(answers[0]);
  }

  // ---- config

  lemma {:induction false} FirstOfLines(before: seq<string>, rest: seq<string>, m: string)
    requires forall i :: 0 <= i < |before| ==> !Contains(before[i], m)
    ensures FirstWith(before + rest, m) == FirstWith(rest, m)
  {
    if before == [] {
      assert before + rest == rest;
    } else {
      assert (before + rest)[1..] == before[1..] + rest;
      FirstOfLines(before[1..], rest, m);
    }
  }

  lemma {:induction false} ConfigKind(args: string)
    requires "config" <= args
    ensures Classify("kubeadm", args) == Sandbox
  {
    assert args[0] == 'c';
    NotPrefix("init", args, 0);
    NotPrefix("join", args, 0);
  }

  lemma {:induction false} ConfigLists(args: string, line: string, adminConf: bool, answers: seq<Outcome>)
    requires "config" <= args && answers != []
    ensures var kind := Classify("kubeadm", args);
            && RunCommands(kind, Ok(line), adminConf, answers) == [line]
            && RunPlan(kind, false, Ok(line), adminConf, answers) ==
               if Fails(answers[0]) then Err("command failed")
               else if FirstWith(Lines(answers[0].stdout), "pause").Some? then Ok(SandboxFound(FirstWith(Lines(answers[0].stdout), "pause").value))
               else Err("failed to find sandbox image")
  {
    ConfigKind(args);
    FailsMeans(answers[0]);
  }

  /** Of the images a config command lists, the first with "pause" in it is recorded, and nothing is reported as changed. */
  lemma {:induction false} SandboxIsFirstPause(args: string, line: string, adminConf: bool, answers: seq<Outcome>,
                                               before: seq<string>, image: string, later: seq<string>)
    requires "config" <= args && answers != [] && !Fails(answers[0])
    requires AllFree(before + [image] + later, NEWLINE) && answers[0].stdout == Join(before + [image] + later, "\n")
    requires Contains(image, "pause") && forall i :: 0 <= i < |before| ==> !Contains(before[i], "pause")
    ensures var plan := RunPlan(Classify("kubeadm", args), false, Ok(line), adminConf, answers);
            plan.Ok? && !plan.value.Changes() && forall r :: plan.value.Record(r) == r.(sandboxImage := Some(image))
  {
    SplitOfJoin(before + [image] + later, '\n');
    assert before + [image] + later == before + ([image] + later);
    FirstOfLines(before, [image] + later, "pause");
    ConfigLists(args, line, adminConf, answers);
  }

  /** Without such an image it raises. */
  lemma {:induction false} NoSandboxRaises(args: string, line: string, adminConf: bool, answers: seq<Outcome>, lines: seq<string>)
    requires "config" <= args && answers != [] && lines != []
    requires AllFree(lines, NEWLINE) && answers[0].stdout == Join(lines, "\n")
    requires Fails(answers[0]) || forall i :: 0 <= i < |lines| ==> !Contains(lines[i], "pause")
    ensures RunPlan(Classify("kubeadm", args), false, Ok(line), adminConf, answers).Err?
  {
    ConfigLists(args, line, adminConf, answers);
    if !Fails(answers[0]) {
      SplitOfJoin(lines, '\n');
      assert lines + [] == lines;
      FirstOfLines(lines, [], "pause");
    }
  }
}
