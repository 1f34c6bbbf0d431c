/** GetImageInfo: from the instructions of a Dockerfile to shell commands, environment and a content hash. */
module Dockerfile {
  import opened Basics
  import opened Paths

  datatype Keyword = FROM | RUN | ARG | ENV | WORKDIR | COPY | Other(name: string)
  datatype Instruction = Instruction(cmd: Keyword, value: seq<string>, flags: seq<string>)

  /** A command the translation emits; Render gives its text. */
  datatype Shell =
    | Script(text: string)
    | Export(name: string, value: string)
    | Cd(dir: string)
    | Mkdir(dir: string)
    | Cp(source: string, target: string)
    | Chown(target: string)

  function Render(s: Shell): string
  {
    match s
    case Script(text) => text
    case Export(name, value) => "export " + name + "=" + value
    case Cd(dir) => "cd " + dir
    case Mkdir(dir) => "mkdir -p " + dir
    case Cp(source, target) => "cp -a " + source + " " + target
    case Chown(target) => "chown -R bentoml:bentoml " + target
  }

  function RenderAll(commands: seq<Shell>): (r: seq<string>)
    ensures |r| == |commands|
    ensures forall i :: 0 <= i < |r| ==> r[i] == Render(commands[i])
  {
    seq(|commands|, i requires 0 <= i < |commands| => Render(commands[i]))
  }

  /** The build context, the supplied build arguments, and what hashing a file yields; None is a failure. */
  datatype Inputs = Inputs(contextPath: string, buildArgs: map<string, string>, hashFile: string -> Option<string>)

  datatype Translation = Translation(
    baseImage: string,
    commands: seq<Shell>,
    env: seq<string>,
    args: map<string, string>,
    workingDir: string,
    hashes: seq<string>)

  const START: Translation := Translation("", [], [], map[], "", [])

  /** A file that cannot be hashed is an error; an index beyond a value or flag list panics. */
  datatype Outcome<T> = Ok(value: T) | HashFailed | Panicked

  const CHMOD_ENTRYPOINT: string := "chmod +x /home/bentoml/bento/env/docker/entrypoint.sh"
  const CHOWN_FLAG: string := "--chown=bentoml:bentoml"

  predicate HasPrefix(s: string, prefix: string)
  {
    |s| >= |prefix| && s[..|prefix|] == prefix
  }

  predicate HasSuffix(s: string, suffix: string)
  {
    |s| >= |suffix| && s[|s| - |suffix|..] == suffix
  }

  function TrimSuffix(s: string, suffix: string): string
  {
    if HasSuffix(s, suffix) then s[..|s| - |suffix|] else s
  }

  /** The name and value an ARG gives: what the caller supplied comes before the default. */
  function ArgName(text: string): string
  {
    Partition(text, '=').0
  }

  function ArgValue(text: string, buildArgs: map<string, string>): string
  {
    var (name, default_) := Partition(text, '=');
    if name in buildArgs then buildArgs[name] else default_
  }

  /** A leading dollar refers to an argument, and to the empty string when there is none. */
  function Resolved(text: string, args: map<string, string>): string
  {
    if HasPrefix(text, "$") then Lookup(args, text[1..]) else text
  }

  function TargetDir(target: string): string
  {
    if HasSuffix(target, "/") then Dir(Dir(target)) else Dir(target)
  }

  predicate Relative(source: string)
  {
    source != "" && source[0] != SLASH
  }

  /** Where a COPY source is read from, and how the emitted command names it. */
  function SourcePath(source: string, inputs: Inputs): string
  {
    if Relative(source) then JoinPaths(inputs.contextPath, source) else source
  }

  function SourceName(source: string, inputs: Inputs): string
  {
    if Relative(source) then ReplaceFirst(SourcePath(source, inputs), inputs.contextPath, CONTEXT) else source
  }

  function CopyCommands(source: string, target: string, chown: bool, inputs: Inputs): seq<Shell>
  {
    (if TargetDir(target) != "." then [Mkdir(TargetDir(target))] else [])
    + [Cp(SourceName(source, inputs), target)]
    + (if chown then [Chown(target)] else [])
  }

  predicate Copies(i: Instruction)
  {
    i.cmd == COPY && |i.value| >= 2 && i.value[0] != "."
  }

  /** What the indexing of the loop body needs of an instruction. */
  predicate WellFormed(i: Instruction)
  {
    match i.cmd
    case Other(_) => true
    case ENV => |i.value| >= 2
    case COPY => |i.value| >= 2 && (i.value[0] != "." ==> i.value[0] != "" && |i.flags| >= 1)
    case _ => |i.value| >= 1
  }

  /** The loop body: one instruction. */
  function Step(t: Translation, i: Instruction, inputs: Inputs): Outcome<Translation>
  {
    match i.cmd
    case Other(_) => Ok(t)
    case FROM => if i.value == [] then Panicked else Ok(t.(baseImage := i.value[0]))
    case RUN =>
      if i.value == [] then Panicked
      else if i.value[0] == CHMOD_ENTRYPOINT then Ok(t)
      else Ok(t.(commands := t.commands + [Script(TrimSuffix(i.value[0], "; exit 0"))]))
    case ARG =>
      if i.value == [] then Panicked
      else
        var name, value := ArgName(i.value[0]), ArgValue(i.value[0], inputs.buildArgs);
        Ok(t.(args := t.args[name := value], commands := t.commands + [Export(name, value)]))
    case ENV =>
      if |i.value| < 2 then Panicked
      else Ok(t.(env := t.env + [i.value[0] + "=" + Resolved(i.value[1], t.args)]))
    case WORKDIR =>
      if i.value == [] then Panicked
      else
        var dir := Resolved(i.value[0], t.args);
        Ok(t.(workingDir := dir, commands := t.commands + [Cd(dir)]))
    case COPY =>
      if |i.value| < 2 then Panicked
      else if i.value[0] == "." then Ok(t)
      else if i.value[0] == "" then Panicked
      else
        match inputs.hashFile(SourcePath(i.value[0], inputs))
        case None => HashFailed
        case Some(hash) =>
          if i.flags == [] then Panicked
          else Ok(t.(hashes := t.hashes + [hash],
                     commands := t.commands + CopyCommands(i.value[0], i.value[1], i.flags[0] == CHOWN_FLAG, inputs)))
  }

  function Translate(instructions: seq<Instruction>, inputs: Inputs): Outcome<Translation>
    decreases |instructions|
  {
    if instructions == [] then Ok(START)
    else
      match Translate(instructions[..|instructions| - 1], inputs)
      case Ok(t) => Step(t, instructions[|instructions| - 1], inputs)
      case HashFailed => HashFailed
      case Panicked => Panicked
  }

  datatype ImageInfo = ImageInfo(
    baseImage: string, commands: seq<string>, env: seq<string>, args: map<string, string>, hash: string, workingDir: string)

  function HashBase(t: Translation): string
  {
    t.baseImage + "__" + Join(t.hashes, ":") + "__" + Join(RenderAll(t.commands), ":") + "__" + Join(t.env, ":")
  }

  function Info(t: Translation, blake3: string -> string): ImageInfo
  {
    ImageInfo(t.baseImage, RenderAll(t.commands), t.env, t.args, blake3(HashBase(t)), t.workingDir)
  }

  function ImageInfoOf(instructions: seq<Instruction>, inputs: Inputs, blake3: string -> string): Outcome<ImageInfo>
  {
    match Translate(instructions, inputs)
    case Ok(t) => Ok(Info(t, blake3))
    case HashFailed => HashFailed
    case Panicked => Panicked
  }

  /** The first instruction that fails ends the loop: what follows it does not matter. */
  lemma {:induction false} FailureIsFinal(instructions: seq<Instruction>, k: nat, inputs: Inputs)
    requires k <= |instructions| && !Translate(instructions[..k], inputs).Ok?
    ensures Translate(instructions, inputs) == Translate(instructions[..k], inputs)
    decreases |instructions| - k
  {
    if k == |instructions| {
      assert instructions[..k] == instructions;
    } else {
      assert instructions[..k + 1][..k] == instructions[..k];
      FailureIsFinal(instructions, k + 1, inputs);
    }
  }

  lemma TranslateNext(instructions: seq<Instruction>, k: nat, inputs: Inputs, t: Translation)
    requires k < |instructions| && Translate(instructions[..k], inputs) == Ok(t)
    ensures Translate(instructions[..k + 1], inputs) == Step(t, instructions[k], inputs)
  {
    assert instructions[..k + 1][..k] == instructions[..k];
  }

  /** The commands one COPY adds, appended one after the other. */
  method EmitCopy(commands: seq<Shell>, source: string, target: string, flags: seq<string>, inputs: Inputs)
    returns (r: seq<Shell>)
    requires source != "" && flags != []
    ensures r == commands + CopyCommands(source, target, flags[0] == CHOWN_FLAG, inputs)
  {
    r := commands;
    var path := source;
    var contextPathJoined := false;
    if source[0] != SLASH {
      path := JoinPaths(inputs.contextPath, source);
      contextPathJoined := true;
    }
    var targetDir := Dir(target);
    if HasSuffix(target, "/") {
      targetDir := Dir(targetDir);
    }
    if targetDir != "" && targetDir != "." {
      r := r + [Mkdir(targetDir)];
    }
    if contextPathJoined {
      path := ReplaceFirst(path, inputs.contextPath, CONTEXT);
    }
    r := r + [Cp(path, target)];
    if flags[0] == CHOWN_FLAG {
      r := r + [Chown(target)];
    }
  }

  /** The translation as one loop over the instructions, growing its lists and maps in place. */
  method GetImageInfo(instructions: seq<Instruction>, inputs: Inputs, blake3: string -> string)
    returns (r: Outcome<ImageInfo>)
    ensures r == ImageInfoOf(instructions, inputs, blake3)
  {
    hide CopyCommands, SourceName, SourcePath, TargetDir, ArgValue, ArgName, Resolved, TrimSuffix, Render;
    var hashes: seq<string> := [];
    var baseImage := "";
    var commands: seq<Shell> := [];
    var env: seq<string> := [];
    var args: map<string, string> := map[];
    var workingDir := "";
    for k := 0 to |instructions|
      invariant Translate(instructions[..k], inputs) == Ok(Translation(baseImage, commands, env, args, workingDir, hashes))
    {
      var i := instructions[k];
      ghost var before := Translation(baseImage, commands, env, args, workingDir, hashes);
      TranslateNext(instructions, k, inputs, before);
      if !Step(before, i, inputs).Ok? {
        FailureIsFinal(instructions, k + 1, inputs);
      }
      if |i.value| < 1 && !i.cmd.Other? {
        return Panicked;
      }
      match i.cmd {
        case FROM =>
          baseImage := i.value[0];
        case RUN =>
          if i.value[0] != CHMOD_ENTRYPOINT {
            commands := commands + [Script(TrimSuffix(i.value[0], "; exit 0"))];
          }
        case ARG =>
          var name, value := ArgName(i.value[0]), ArgValue(i.value[0], inputs.buildArgs);
          args := args[name := value];
          commands := commands + [Export(name, value)];
        case ENV =>
          if |i.value| < 2 {
            return Panicked;
          }
          env := env + [i.value[0] + "=" + Resolved(i.value[1], args)];
        case WORKDIR =>
          workingDir := Resolved(i.value[0], args);
          commands := commands + [Cd(workingDir)];
        case COPY =>
          if |i.value| < 2 {
            return Panicked;
          }
          var source, target := i.value[0], i.value[1];
          if source != "." {
            if source == "" {
              return Panicked;
            }
            var hash := inputs.hashFile(SourcePath(source, inputs));
            if hash.None? {
              return HashFailed;
            }
            if i.flags == [] {
              return Panicked;
            }
            hashes := hashes + [hash.value];
            commands := EmitCopy(commands, source, target, i.flags, inputs);
          }
        case Other(_) =>
      }
    }
    assert instructions[..|instructions|] == instructions;
    r := Ok(Info(Translation(baseImage, commands, env, args, workingDir, hashes), blake3));
  }
}
