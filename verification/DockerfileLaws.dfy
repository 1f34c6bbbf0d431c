/** What the translation of a Dockerfile preserves, and what it does not depend on. */
module DockerfileLaws {
  import opened Basics
  import opened Paths
  import opened Dockerfile

  // References resolve against the arguments in scope.

  /** The value of the last ARG of that name, or the empty string. */
  function InScope(instructions: seq<Instruction>, buildArgs: map<string, string>, name: string): string
  {
    if instructions == [] then ""
    else
      var last := instructions[|instructions| - 1];
      if last.cmd == ARG && last.value != [] && ArgName(last.value[0]) == name then ArgValue(last.value[0], buildArgs)
      else InScope(instructions[..|instructions| - 1], buildArgs, name)
  }

  function Meaning(instructions: seq<Instruction>, buildArgs: map<string, string>, text: string): string
  {
    if HasPrefix(text, "$") then InScope(instructions, buildArgs, text[1..]) else text
  }

  /** The environment, the working directory and the base image as a reader of the file would give them. */
  function Environment(instructions: seq<Instruction>, buildArgs: map<string, string>): seq<string>
  {
    if instructions == [] then []
    else
      var before, last := instructions[..|instructions| - 1], instructions[|instructions| - 1];
      Environment(before, buildArgs)
      + if last.cmd == ENV && |last.value| >= 2 then
          [last.value[0] + "=" + Meaning(before, buildArgs, last.value[1])]
        else []
  }

  function WorkingDir(instructions: seq<Instruction>, buildArgs: map<string, string>): string
  {
    if instructions == [] then ""
    else
      var before, last := instructions[..|instructions| - 1], instructions[|instructions| - 1];
      if last.cmd == WORKDIR && last.value != [] then Meaning(before, buildArgs, last.value[0])
      else WorkingDir(before, buildArgs)
  }

  function BaseImage(instructions: seq<Instruction>): string
  {
    if instructions == [] then ""
    else
      var before, last := instructions[..|instructions| - 1], instructions[|instructions| - 1];
      if last.cmd == FROM && last.value != [] then last.value[0] else BaseImage(before)
  }

  lemma {:induction false} ArgsAreInScope(instructions: seq<Instruction>, inputs: Inputs, name: string)
    requires Translate(instructions, inputs).Ok?
    ensures Lookup(Translate(instructions, inputs).value.args, name) == InScope(instructions, inputs.buildArgs, name)
    decreases |instructions|
  {
    hide ArgValue, ArgName, CopyCommands, Resolved, TrimSuffix;
    if instructions != [] {
      ArgsAreInScope(instructions[..|instructions| - 1], inputs, name);
    }
  }

  /** What one more instruction adds, its references read as the arguments in scope before it. */
  lemma StepMeans(before: seq<Instruction>, last: Instruction, inputs: Inputs, t: Translation)
    requires Translate(before, inputs) == Ok(t) && Step(t, last, inputs).Ok?
    ensures var next, args := Step(t, last, inputs).value, inputs.buildArgs;
            && next.env == t.env + (if last.cmd == ENV && |last.value| >= 2
                                    then [last.value[0] + "=" + Meaning(before, args, last.value[1])] else [])
            && next.workingDir == (if last.cmd == WORKDIR && last.value != []
                                   then Meaning(before, args, last.value[0]) else t.workingDir)
            && next.baseImage == if last.cmd == FROM && last.value != [] then last.value[0] else t.baseImage
  {
    hide ArgValue, ArgName, CopyCommands, TrimSuffix, InScope, Translate;
    if (last.cmd == ENV || last.cmd == WORKDIR) && |last.value| > 0 {
      var text := if last.cmd == ENV then last.value[1] else last.value[0];
      if HasPrefix(text, "$") {
        ArgsAreInScope(before, inputs, text[1..]);
      }
    }
  }

  /** Every ENV and WORKDIR reference means the argument in scope at that very point of the file. */
  lemma {:induction false} ReferencesMeanArgsInScope(instructions: seq<Instruction>, inputs: Inputs)
    requires Translate(instructions, inputs).Ok?
    ensures var t := Translate(instructions, inputs).value;
            && t.env == Environment(instructions, inputs.buildArgs)
            && t.workingDir == WorkingDir(instructions, inputs.buildArgs)
            && t.baseImage == BaseImage(instructions)
    decreases |instructions|
  {
    hide Step, Meaning;
    if instructions != [] {
      var n := |instructions| - 1;
      var before, last := instructions[..n], instructions[n];
      ReferencesMeanArgsInScope(before, inputs);
      StepMeans(before, last, inputs, Translate(before, inputs).value);
    }
  }

  // Replaying the emitted commands.

  /** The exported variables, and the directory the shell is in as a list of its elements. */
  datatype ShellState = ShellState(vars: map<string, string>, dir: seq<string>)

  /** Running the commands from a start directory; a relative cd is taken from where the shell is. */
  function Replay(commands: seq<Shell>, start: seq<string>, home: seq<string>): ShellState
  {
    if commands == [] then ShellState(map[], start)
    else
      var s := Replay(commands[..|commands| - 1], start, home);
      match commands[|commands| - 1]
      case Export(name, value) => s.(vars := s.vars[name := value])
      case Cd(dir) => s.(dir := Chdir(s.dir, dir, home))
      case _ => s
  }

  predicate MovesNothing(commands: seq<Shell>)
  {
    forall c <- commands :: !c.Export? && !c.Cd?
  }

  lemma {:induction false} ReplayAppend(a: seq<Shell>, b: seq<Shell>, start: seq<string>, home: seq<string>)
    requires MovesNothing(b)
    ensures Replay(a + b, start, home) == Replay(a, start, home)
  {
    hide Chdir;
    if b == [] {
      assert a + b == a;
    } else {
      var n := |b| - 1;
      assert b[n] in b;
      assert (a + b)[..|a + b| - 1] == a + b[..n];
      ReplayAppend(a, b[..n], start, home);
    }
  }

  lemma ReplayOne(a: seq<Shell>, c: Shell, start: seq<string>, home: seq<string>)
    ensures var s := Replay(a, start, home);
            Replay(a + [c], start, home) == match c
              case Export(name, value) => s.(vars := s.vars[name := value])
              case Cd(dir) => s.(dir := Chdir(s.dir, dir, home))
              case _ => s
  {
    hide Chdir;
    assert (a + [c])[..|a + [c]| - 1] == a;
  }

  /** Where the shell is after the commands of the instructions, as a reader of the file follows it. */
  function ShellDir(instructions: seq<Instruction>, buildArgs: map<string, string>, start: seq<string>, home: seq<string>)
    : seq<string>
  {
    if instructions == [] then start
    else
      var before, last := instructions[..|instructions| - 1], instructions[|instructions| - 1];
      var dir := ShellDir(before, buildArgs, start, home);
      if last.cmd == WORKDIR && last.value != [] then Chdir(dir, Meaning(before, buildArgs, last.value[0]), home)
      else dir
  }

  /** Where the shell is when it reaches the last WORKDIR. */
  function DirBeforeLast(
      instructions: seq<Instruction>, buildArgs: map<string, string>, start: seq<string>, home: seq<string>): seq<string>
  {
    if instructions == [] then start
    else
      var before, last := instructions[..|instructions| - 1], instructions[|instructions| - 1];
      if last.cmd == WORKDIR && last.value != [] then ShellDir(before, buildArgs, start, home)
      else DirBeforeLast(before, buildArgs, start, home)
  }

  predicate HasWorkdir(instructions: seq<Instruction>)
  {
    exists i <- instructions :: i.cmd == WORKDIR && i.value != []
  }

  lemma StepReplays(t: Translation, i: Instruction, inputs: Inputs, start: seq<string>, home: seq<string>)
    requires Step(t, i, inputs).Ok? && Replay(t.commands, start, home).vars == t.args
    ensures var t' := Step(t, i, inputs).value;
            var s := Replay(t'.commands, start, home);
            && s.vars == t'.args
            && s.dir == if i.cmd == WORKDIR then Chdir(Replay(t.commands, start, home).dir, t'.workingDir, home)
                        else Replay(t.commands, start, home).dir
  {
    hide Replay, Chdir, SourceName, TargetDir, ArgValue, ArgName, Resolved, TrimSuffix;
    match i.cmd
    case RUN => ReplayOne(t.commands, Script(TrimSuffix(i.value[0], "; exit 0")), start, home);
    case ARG => ReplayOne(t.commands, Export(ArgName(i.value[0]), ArgValue(i.value[0], inputs.buildArgs)), start, home);
    case WORKDIR => ReplayOne(t.commands, Cd(Resolved(i.value[0], t.args)), start, home);
    case COPY =>
      if i.value[0] != "." {
        ReplayAppend(t.commands, CopyCommands(i.value[0], i.value[1], i.flags[0] == CHOWN_FLAG, inputs), start, home);
      }
    case _ =>
  }

  /** Replaying yields exactly the returned arguments, and leads where a reader of the file is led. */
  lemma {:induction false} ReplayFollowsFile(
      instructions: seq<Instruction>, inputs: Inputs, start: seq<string>, home: seq<string>)
    requires Translate(instructions, inputs).Ok?
    ensures var t := Translate(instructions, inputs).value;
            Replay(t.commands, start, home)
            == ShellState(t.args, ShellDir(instructions, inputs.buildArgs, start, home))
    decreases |instructions|
  {
    hide Step, Replay, Chdir, Meaning;
    if instructions == [] {
      NothingReplayed(start, home);
    } else {
      var n := |instructions| - 1;
      var before := Translate(instructions[..n], inputs);
      ReplayFollowsFile(instructions[..n], inputs, start, home);
      StepReplays(before.value, instructions[n], inputs, start, home);
      WorkdirMeans(instructions, inputs);
    }
  }

  lemma NothingReplayed(start: seq<string>, home: seq<string>)
    ensures Replay([], start, home) == ShellState(map[], start)
  {
  }

  /** The working directory after a WORKDIR is what its argument means there. */
  lemma WorkdirMeans(instructions: seq<Instruction>, inputs: Inputs)
    requires instructions != [] && Translate(instructions, inputs).Ok?
    ensures var before, last := instructions[..|instructions| - 1], instructions[|instructions| - 1];
            last.cmd == WORKDIR ==>
              last.value != []
              && Translate(instructions, inputs).value.workingDir == Meaning(before, inputs.buildArgs, last.value[0])
  {
    hide Meaning;
    ReferencesMeanArgsInScope(instructions, inputs);
    TranslatesIff(instructions, inputs);
    assert instructions[|instructions| - 1] in instructions;
  }

  lemma {:induction false} LastWorkdirLeads(
      instructions: seq<Instruction>, inputs: Inputs, start: seq<string>, home: seq<string>)
    requires Translate(instructions, inputs).Ok?
    ensures var dir := ShellDir(instructions, inputs.buildArgs, start, home);
            if HasWorkdir(instructions) then
              dir == Chdir(DirBeforeLast(instructions, inputs.buildArgs, start, home),
                           Translate(instructions, inputs).value.workingDir, home)
            else dir == start
    decreases |instructions|
  {
    hide Chdir, Meaning, Translate;
    if instructions != [] {
      var n := |instructions| - 1;
      var before, last := instructions[..n], instructions[n];
      assert instructions == before + [last];
      PrefixTranslates(instructions, inputs);
      LastWorkdirLeads(before, inputs, start, home);
      WorkdirMeans(instructions, inputs);
    }
  }

  /** Other instructions leave the working directory alone. */
  lemma PrefixTranslates(instructions: seq<Instruction>, inputs: Inputs)
    requires instructions != [] && Translate(instructions, inputs).Ok?
    ensures var before, last := instructions[..|instructions| - 1], instructions[|instructions| - 1];
            && Translate(before, inputs).Ok?
            && (last.cmd != WORKDIR ==>
                  Translate(instructions, inputs).value.workingDir == Translate(before, inputs).value.workingDir)
  {
    hide SourcePath, CopyCommands, ArgValue, ArgName, Resolved, TrimSuffix;
  }

  lemma {:induction false} ShellDirIsProper(
      instructions: seq<Instruction>, buildArgs: map<string, string>, start: seq<string>, home: seq<string>)
    requires AllProper(start) && AllProper(home)
    ensures AllProper(ShellDir(instructions, buildArgs, start, home))
    ensures AllProper(DirBeforeLast(instructions, buildArgs, start, home))
  {
    hide Chdir, Meaning, AllProper;
    if instructions != [] {
      var n := |instructions| - 1;
      ShellDirIsProper(instructions[..n], buildArgs, start, home);
      var last := instructions[n];
      if last.cmd == WORKDIR && last.value != [] {
        ChdirIsProper(ShellDir(instructions[..n], buildArgs, start, home), Meaning(instructions[..n], buildArgs, last.value[0]), home);
      }
    }
  }

  /**
   Replaying the emitted commands from any start directory yields exactly the returned arguments. It
   ends in the returned working directory, taken from the start, exactly when there is no WORKDIR or
   the last one leads the same way from the start as from where the shell was before it: it is
   absolute, or climbs far enough, or the shell had not effectively moved.
   */
  lemma ReplayYieldsArgsAndDirIff(instructions: seq<Instruction>, inputs: Inputs, start: seq<string>, home: seq<string>)
    requires AllProper(start) && AllProper(home) && Translate(instructions, inputs).Ok?
    ensures var t := Translate(instructions, inputs).value;
            var s := Replay(t.commands, start, home);
            && s.vars == t.args
            && (!HasWorkdir(instructions) ==> s.dir == start)
            && (HasWorkdir(instructions) ==>
                  (s.dir == Chdir(start, t.workingDir, home) <==>
                   LeadsAlike(DirBeforeLast(instructions, inputs.buildArgs, start, home), start, t.workingDir)))
  {
    hide Replay, Chdir, LeadsAlike, AllProper, Translate;
    ReplayFollowsFile(instructions, inputs, start, home);
    LastWorkdirLeads(instructions, inputs, start, home);
    ShellDirIsProper(instructions, inputs.buildArgs, start, home);
    ChdirSameIff(DirBeforeLast(instructions, inputs.buildArgs, start, home), start,
                 Translate(instructions, inputs).value.workingDir, home);
  }

  /** The input on which it fails: an absolute WORKDIR and then a relative one. */
  lemma RelativeWorkdirMisleads(inputs: Inputs)
    ensures var instructions := [Instruction(WORKDIR, ["/a"], []), Instruction(WORKDIR, ["b"], [])];
            && Translate(instructions, inputs).Ok?
            && var t := Translate(instructions, inputs).value;
            && t.workingDir == "b"
            && Replay(t.commands, [], []).dir == ["a", "b"]
            && Chdir([], t.workingDir, []) == ["b"]
  {
    var first, second := Instruction(WORKDIR, ["/a"], []), Instruction(WORKDIR, ["b"], []);
    var instructions := [first, second];
    assert instructions[..1] == [first] && [first][..0] == [];
    ResolvedPlain("/a", START.args);
    assert Translate([first], inputs) == Step(START, first, inputs);
    var one := Translate([first], inputs).value;
    assert one.commands == [Cd("/a")] && one.workingDir == "/a";
    ResolvedPlain("b", one.args);
    assert Translate(instructions, inputs) == Step(one, second, inputs);
    var two := Translate(instructions, inputs).value;
    ReplayOne([], Cd("/a"), [], []);
    assert [] + [Cd("/a")] == [Cd("/a")];
    ReplayOne([Cd("/a")], Cd("b"), [], []);
    assert two.commands == [Cd("/a")] + [Cd("b")];
    ChdirSamples();
  }

  lemma ResolvedPlain(text: string, args: map<string, string>)
    requires text != "" && text[0] != '$'
    ensures Resolved(text, args) == text
  {
    assert text[..1][0] == text[0];
  }

  lemma ChdirSamples()
    ensures Chdir([], "/a", []) == ["a"] && Chdir(["a"], "b", []) == ["a", "b"] && Chdir([], "b", []) == ["b"]
  {
    hide Split, Normal;
    SplitElement("a");
    SplitElement("b");
    SplitElement("");
    SplitAtSlash("", "a");
    assert "/a" == "" + "/" + "a";
    assert Split("/a") == [""] + ["a"];
    NormalKeepsProper([""], ["a"], true);
    EmptyElement();
    assert [] + ([""] + ["a"]) == [""] + ["a"];
    ProperIsNormal(["a"] + ["b"]);
    ProperIsNormal(["b"]);
    assert [] + ["b"] == ["b"] && [] + ["a"] == ["a"];
  }

  lemma EmptyElement()
    ensures Normal([""], true) == []
  {
    assert [""][..0] == [];
  }

  lemma ProperIsNormal(elements: seq<string>)
    requires AllProper(elements)
    ensures Normal(elements, true) == elements
  {
    NormalKeepsProper([], elements, true);
    assert [] + elements == elements;
  }

  // Copies.

  /** The COPY instructions whose source is not the whole context. */
  function CopyList(instructions: seq<Instruction>): (r: seq<Instruction>)
    ensures forall i <- r :: Copies(i)
  {
    if instructions == [] then []
    else
      var last := instructions[|instructions| - 1];
      CopyList(instructions[..|instructions| - 1]) + if Copies(last) then [last] else []
  }

  function CpList(commands: seq<Shell>): seq<Shell>
  {
    if commands == [] then []
    else
      var last := commands[|commands| - 1];
      CpList(commands[..|commands| - 1]) + if last.Cp? then [last] else []
  }

  lemma {:induction false} CpListAppend(a: seq<Shell>, b: seq<Shell>)
    ensures CpList(a + b) == CpList(a) + CpList(b)
  {
    if b == [] {
      assert a + b == a;
    } else {
      assert (a + b)[..|a + b| - 1] == a + b[..|b| - 1];
      CpListAppend(a, b[..|b| - 1]);
    }
  }

  lemma CopyEmitsOneCp(source: string, target: string, chown: bool, inputs: Inputs)
    ensures CpList(CopyCommands(source, target, chown, inputs)) == [Cp(SourceName(source, inputs), target)]
  {
    hide CpList;
    var mkdir := if TargetDir(target) != "." then [Mkdir(TargetDir(target))] else [];
    var cp := [Cp(SourceName(source, inputs), target)];
    var owner := if chown then [Chown(target)] else [];
    CpListAppend(mkdir + cp, owner);
    CpListAppend(mkdir, cp);
    CpOfOne(Mkdir(TargetDir(target)));
    CpOfOne(cp[0]);
    CpOfOne(Chown(target));
  }

  lemma CpOfOne(c: Shell)
    ensures CpList([c]) == if c.Cp? then [c] else []
    ensures CpList([]) == []
  {
    assert [c][..0] == [];
  }

  /** The k-th cp and the k-th hash belong to the k-th COPY. */
  ghost predicate CopiesInOrder(t: Translation, copies: seq<Instruction>, inputs: Inputs)
    requires forall i <- copies :: Copies(i)
  {
    && |CpList(t.commands)| == |t.hashes| == |copies|
    && forall k :: 0 <= k < |copies| ==>
         assert copies[k] in copies && Copies(copies[k]);
         && CpList(t.commands)[k] == Cp(SourceName(copies[k].value[0], inputs), copies[k].value[1])
         && inputs.hashFile(SourcePath(copies[k].value[0], inputs)) == Some(t.hashes[k])
  }

  lemma StepCopies(t: Translation, i: Instruction, copies: seq<Instruction>, inputs: Inputs)
    requires (forall c <- copies :: Copies(c)) && CopiesInOrder(t, copies, inputs) && Step(t, i, inputs).Ok?
    ensures CopiesInOrder(Step(t, i, inputs).value, copies + if Copies(i) then [i] else [], inputs)
  {
    hide SourceName, SourcePath, ArgValue, ArgName, Resolved, TrimSuffix, CpList, CopyCommands;
    var t' := Step(t, i, inputs).value;
    match i.cmd
    case RUN =>
      var c := Script(TrimSuffix(i.value[0], "; exit 0"));
      CpListAppend(t.commands, [c]);
      CpOfOne(c);
    case ARG =>
      var c := Export(ArgName(i.value[0]), ArgValue(i.value[0], inputs.buildArgs));
      CpListAppend(t.commands, [c]);
      CpOfOne(c);
    case WORKDIR =>
      var c := Cd(Resolved(i.value[0], t.args));
      CpListAppend(t.commands, [c]);
      CpOfOne(c);
    case COPY =>
      if Copies(i) {
        var chown := i.flags[0] == CHOWN_FLAG;
        CpListAppend(t.commands, CopyCommands(i.value[0], i.value[1], chown, inputs));
        CopyEmitsOneCp(i.value[0], i.value[1], chown, inputs);
      }
    case _ =>
  }

  /** As many cp commands as file hashes and as copies, and each for its own. */
  lemma {:induction false} OneCpAndHashPerCopy(instructions: seq<Instruction>, inputs: Inputs)
    requires Translate(instructions, inputs).Ok?
    ensures CopiesInOrder(Translate(instructions, inputs).value, CopyList(instructions), inputs)
    decreases |instructions|
  {
    hide Step, CopiesInOrder;
    if instructions == [] {
      NothingCopied(inputs);
    } else {
      var n := |instructions| - 1;
      OneCpAndHashPerCopy(instructions[..n], inputs);
      StepCopies(Translate(instructions[..n], inputs).value, instructions[n], CopyList(instructions[..n]), inputs);
    }
  }

  lemma NothingCopied(inputs: Inputs)
    ensures CopiesInOrder(START, [], inputs)
  {
  }

  /** Before every cp into a directory worth making, that directory is made. */
  predicate DirsComeFirst(commands: seq<Shell>)
  {
    forall k :: 0 <= k < |commands| && commands[k].Cp? && TargetDir(commands[k].target) != "." ==>
      k > 0 && commands[k - 1] == Mkdir(TargetDir(commands[k].target))
  }

  lemma StepMakesDirs(t: Translation, i: Instruction, inputs: Inputs)
    requires DirsComeFirst(t.commands) && Step(t, i, inputs).Ok?
    ensures DirsComeFirst(Step(t, i, inputs).value.commands)
  {
    hide TargetDir, SourceName, SourcePath, ArgValue, ArgName, Resolved, TrimSuffix;
  }

  lemma {:induction false} EveryCpHasItsDir(instructions: seq<Instruction>, inputs: Inputs)
    requires Translate(instructions, inputs).Ok?
    ensures DirsComeFirst(Translate(instructions, inputs).value.commands)
    decreases |instructions|
  {
    hide Step, TargetDir;
    if instructions != [] {
      var n := |instructions| - 1;
      EveryCpHasItsDir(instructions[..n], inputs);
      StepMakesDirs(Translate(instructions[..n], inputs).value, instructions[n], inputs);
    }
  }

  // When there is a translation at all.

  /** The instruction neither panics nor names a file that cannot be hashed. */
  predicate Translatable(i: Instruction, inputs: Inputs)
  {
    WellFormed(i) && (Copies(i) ==> inputs.hashFile(SourcePath(i.value[0], inputs)).Some?)
  }

  lemma StepOkIff(t: Translation, i: Instruction, inputs: Inputs)
    ensures Step(t, i, inputs).Ok? <==> Translatable(i, inputs)
  {
    hide SourcePath, CopyCommands, ArgValue, ArgName, Resolved, TrimSuffix;
  }

  lemma {:induction false} TranslatesIff(instructions: seq<Instruction>, inputs: Inputs)
    ensures Translate(instructions, inputs).Ok? <==> forall i <- instructions :: Translatable(i, inputs)
    decreases |instructions|
  {
    hide Step, Translatable;
    if instructions != [] {
      var n := |instructions| - 1;
      var before := instructions[..n];
      TranslatesIff(before, inputs);
      assert instructions == before + [instructions[n]];
      if Translate(before, inputs).Ok? {
        StepOkIff(Translate(before, inputs).value, instructions[n], inputs);
      }
    }
  }

  // Two runs.

  /** The same instruction, up to the default of an argument that is supplied in both runs. */
  predicate SameUnder(a: Instruction, b: Instruction, first: map<string, string>, second: map<string, string>)
  {
    || (a == b && (a.cmd == ARG && a.value != [] ==> ArgValue(a.value[0], first) == ArgValue(a.value[0], second)))
    || (&& a.cmd == ARG && b.cmd == ARG && a.value != [] && b.value != []
        && ArgName(a.value[0]) == ArgName(b.value[0])
        && ArgName(a.value[0]) in first && ArgName(a.value[0]) in second
        && first[ArgName(a.value[0])] == second[ArgName(a.value[0])])
  }

  lemma SameStep(t: Translation, a: Instruction, b: Instruction, inputs: Inputs, second: map<string, string>)
    requires SameUnder(a, b, inputs.buildArgs, second)
    ensures Step(t, a, inputs) == Step(t, b, inputs.(buildArgs := second))
  {
    hide SourceName, TargetDir, Resolved, TrimSuffix, Partition;
    if Copies(a) {
      SameCopy(a, inputs, second);
    }
  }

  lemma SameCopy(a: Instruction, inputs: Inputs, second: map<string, string>)
    requires Copies(a)
    ensures SourcePath(a.value[0], inputs) == SourcePath(a.value[0], inputs.(buildArgs := second))
    ensures SourceName(a.value[0], inputs) == SourceName(a.value[0], inputs.(buildArgs := second))
  {
  }

  /**
   Non-interference: Dockerfiles that differ only in defaults of supplied arguments, run with
   build arguments that differ only where no ARG declares them, give the same outcome, hash included.
   */
  lemma {:induction false} DefaultsDoNotInterfere(
      a: seq<Instruction>, b: seq<Instruction>, inputs: Inputs, second: map<string, string>, blake3: string -> string)
    requires |a| == |b| && forall k :: 0 <= k < |a| ==> SameUnder(a[k], b[k], inputs.buildArgs, second)
    ensures ImageInfoOf(a, inputs, blake3) == ImageInfoOf(b, inputs.(buildArgs := second), blake3)
  {
    SameTranslation(a, b, inputs, second);
  }

  lemma {:induction false} SameTranslation(
      a: seq<Instruction>, b: seq<Instruction>, inputs: Inputs, second: map<string, string>)
    requires |a| == |b| && forall k :: 0 <= k < |a| ==> SameUnder(a[k], b[k], inputs.buildArgs, second)
    ensures Translate(a, inputs) == Translate(b, inputs.(buildArgs := second))
    decreases |a|
  {
    hide Step, SameUnder;
    if a != [] {
      var n := |a| - 1;
      SameTranslation(a[..n], b[..n], inputs, second);
      var before := Translate(a[..n], inputs);
      if before.Ok? {
        SameStep(before.value, a[n], b[n], inputs, second);
      }
    }
  }

  predicate Declares(instructions: seq<Instruction>, name: string)
  {
    exists i <- instructions :: i.cmd == ARG && i.value != [] && ArgName(i.value[0]) == name
  }

  /** Build arguments that no ARG declares change nothing. */
  lemma UndeclaredArgsAreIgnored(
      instructions: seq<Instruction>, inputs: Inputs, extra: map<string, string>, blake3: string -> string)
    requires forall name <- extra :: !Declares(instructions, name)
    ensures ImageInfoOf(instructions, inputs, blake3)
         == ImageInfoOf(instructions, inputs.(buildArgs := inputs.buildArgs + extra), blake3)
  {
    forall k | 0 <= k < |instructions|
      ensures SameUnder(instructions[k], instructions[k], inputs.buildArgs, inputs.buildArgs + extra)
    {
      var i := instructions[k];
      if i.cmd == ARG && i.value != [] && ArgName(i.value[0]) in extra {
        assert i in instructions;
        assert Declares(instructions, ArgName(i.value[0]));
      }
    }
    DefaultsDoNotInterfere(instructions, instructions, inputs, inputs.buildArgs + extra, blake3);
  }

  // Relocation.

  /** Sources that stay inside the context, or do not depend on it. */
  predicate Relocatable(instructions: seq<Instruction>)
  {
    forall i <- instructions :: Copies(i) && Relative(i.value[0]) ==> InsidePath(i.value[0])
  }

  /** All of the translation but the file hashes. */
  function Unhashed(t: Translation): Translation
  {
    t.(hashes := [])
  }

  lemma RelocatedStep(t: Translation, u: Translation, i: Instruction, a: Inputs, b: Inputs)
    requires GoodContext(a.contextPath) && GoodContext(b.contextPath) && a.buildArgs == b.buildArgs
    requires Copies(i) && Relative(i.value[0]) ==> InsidePath(i.value[0])
    requires Unhashed(t) == Unhashed(u)
    requires Step(t, i, a).Ok? && Step(u, i, b).Ok?
    ensures Unhashed(Step(t, i, a).value) == Unhashed(Step(u, i, b).value)
  {
    hide TargetDir, Resolved, TrimSuffix, ArgName, ArgValue, GoodContext, InsidePath, ReplaceFirst, JoinPaths;
    if Copies(i) {
      var source := i.value[0];
      if Relative(source) {
        RelocatedName(source, a);
        RelocatedName(source, b);
      }
      assert SourceName(source, a) == SourceName(source, b);
      assert CopyCommands(source, i.value[1], i.flags[0] == CHOWN_FLAG, a)
          == CopyCommands(source, i.value[1], i.flags[0] == CHOWN_FLAG, b);
    }
  }

  lemma RelocatedName(source: string, inputs: Inputs)
    requires GoodContext(inputs.contextPath) && Relative(source) && InsidePath(source)
    ensures SourceName(source, inputs) == CONTEXT + "/" + source
  {
    hide InsidePath, ReplaceFirst, JoinPaths, Clean;
    RelocatedIff(inputs.contextPath, source);
  }

  /**
   Relocation: from any two clean, absolute, non-root contexts the emitted commands, environment,
   arguments, base image and working directory are the same; only file hashes can tell them apart.
   */
  lemma {:induction false} ContextDoesNotMatter(instructions: seq<Instruction>, a: Inputs, b: Inputs)
    requires GoodContext(a.contextPath) && GoodContext(b.contextPath) && a.buildArgs == b.buildArgs
    requires Relocatable(instructions)
    requires Translate(instructions, a).Ok? && Translate(instructions, b).Ok?
    ensures Unhashed(Translate(instructions, a).value) == Unhashed(Translate(instructions, b).value)
    decreases |instructions|
  {
    hide Step, Unhashed, InsidePath, GoodContext;
    if instructions != [] {
      var n := |instructions| - 1;
      var before, last := instructions[..n], instructions[n];
      assert instructions == before + [last];
      assert last in instructions;
      ContextDoesNotMatter(before, a, b);
      RelocatedStep(Translate(before, a).value, Translate(before, b).value, last, a, b);
    }
  }

  /** With the same hash for every copied file, the whole image information is the same. */
  lemma SameFilesSameInfo(instructions: seq<Instruction>, a: Inputs, b: Inputs, blake3: string -> string)
    requires GoodContext(a.contextPath) && GoodContext(b.contextPath) && a.buildArgs == b.buildArgs
    requires Relocatable(instructions)
    requires Translate(instructions, a).Ok?
    requires forall i <- CopyList(instructions) ::
               a.hashFile(SourcePath(i.value[0], a)) == b.hashFile(SourcePath(i.value[0], b))
    ensures ImageInfoOf(instructions, a, blake3) == ImageInfoOf(instructions, b, blake3)
  {
    hide SourcePath, SourceName, InsidePath, GoodContext, CpList;
    CopiesAreListed(instructions);
    TranslatesIff(instructions, a);
    TranslatesIff(instructions, b);
    ContextDoesNotMatter(instructions, a, b);
    OneCpAndHashPerCopy(instructions, a);
    OneCpAndHashPerCopy(instructions, b);
    var t, u := Translate(instructions, a).value, Translate(instructions, b).value;
    var copies := CopyList(instructions);
    forall k | 0 <= k < |copies| ensures t.hashes[k] == u.hashes[k] {
      assert copies[k] in copies;
    }
    assert t.hashes == u.hashes;
    assert t == Unhashed(t).(hashes := t.hashes);
    assert u == Unhashed(u).(hashes := u.hashes);
  }

  lemma {:induction false} CopiesAreListed(instructions: seq<Instruction>)
    ensures forall i <- instructions :: Copies(i) ==> i in CopyList(instructions)
  {
    if instructions != [] {
      var n := |instructions| - 1;
      CopiesAreListed(instructions[..n]);
      assert instructions == instructions[..n] + [instructions[n]];
    }
  }
}
