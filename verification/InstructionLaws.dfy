/** What each Dockerfile instruction contributes, in terms of its own text. */
module InstructionLaws {
  import opened Basics
  import opened Paths
  import opened Dockerfile

  // The last ARG of a name.

  /** An ARG of that name, with a default behind an equals sign or without one. */
  predicate IsArg(i: Instruction, name: string)
  {
    i.cmd == ARG && i.value != [] && (i.value[0] == name || name + "=" <= i.value[0])
  }

  predicate IsLastArg(instructions: seq<Instruction>, k: nat, name: string)
    requires k < |instructions|
  {
    IsArg(instructions[k], name) && forall j :: k < j < |instructions| ==> !IsArg(instructions[j], name)
  }

  /** The default it gives. */
  function Default(i: Instruction, name: string): string
    requires IsArg(i, name)
  {
    if i.value[0] == name then "" else i.value[0][|name| + 1..]
  }

  /** What the caller supplies comes before the default. */
  function Given(i: Instruction, name: string, buildArgs: map<string, string>): string
    requires IsArg(i, name)
  {
    if name in buildArgs then buildArgs[name] else Default(i, name)
  }

  lemma ArgText(i: Instruction, name: string, buildArgs: map<string, string>)
    requires '=' !in name && i.cmd == ARG && i.value != []
    ensures IsArg(i, name) <==> ArgName(i.value[0]) == name
    ensures IsArg(i, name) ==> ArgValue(i.value[0], buildArgs) == Given(i, name, buildArgs)
  {
    var text := i.value[0];
    if text == name {
      PartitionOfWhole(text, '=');
    } else if name + "=" <= text {
      var rest := text[|name| + 1..];
      assert text == name + ['='] + rest;
      PartitionOfJoined(name, '=', rest);
    } else {
      CutPrefix(text, '=');
    }
  }

  lemma CutPrefix(s: string, c: char)
    ensures var before := Partition(s, c).0; before == s || before + [c] <= s
  {
    var k := IndexOf(s, c);
    if k < |s| {
      assert s[..k + 1] == s[..k] + [c];
    }
  }

  /** One more ARG sets its name to what is given and exports it; every other name stays as it was. */
  lemma ArgSets(before: seq<Instruction>, i: Instruction, inputs: Inputs, name: string)
    requires Translate(before, inputs).Ok? && IsArg(i, name) && '=' !in name
    ensures var t, r, v := Translate(before, inputs).value, Translate(before + [i], inputs), Given(i, name, inputs.buildArgs);
            && r.Ok? && r.value.args == t.args[name := v]
            && RenderAll(r.value.commands) == RenderAll(t.commands) + ["export " + name + "=" + v]
  {
    hide ArgName, ArgValue;
    ArgText(i, name, inputs.buildArgs);
    OneMore(before, i);
    var t, v := Translate(before, inputs).value, Given(i, name, inputs.buildArgs);
    RenderOneMore(t.commands, Export(name, v));
  }

  lemma OneMore(before: seq<Instruction>, i: Instruction)
    ensures (before + [i])[..|before + [i]| - 1] == before && (before + [i])[|before + [i]| - 1] == i
  {
  }

  lemma RenderOneMore(commands: seq<Shell>, c: Shell)
    ensures RenderAll(commands + [c]) == RenderAll(commands) + [Render(c)]
  {
    hide Render;
  }

  lemma StepArg(t: Translation, i: Instruction, inputs: Inputs, name: string)
    requires '=' !in name && Step(t, i, inputs).Ok?
    ensures var args := Step(t, i, inputs).value.args;
            if IsArg(i, name) then name in args && args[name] == Given(i, name, inputs.buildArgs)
            else (name in args <==> name in t.args) && (name in args ==> args[name] == t.args[name])
  {
    hide Given, ArgName, ArgValue, CopyCommands, Resolved, TrimSuffix, SourcePath;
    if i.cmd == ARG && i.value != [] {
      ArgText(i, name, inputs.buildArgs);
    }
  }

  /**
   In every translation an argument has the value given by the last ARG of its name: what the caller
   supplies, else its own default, else the empty string. Without such an ARG it has none.
   */
  lemma {:induction false} LastArgWins(instructions: seq<Instruction>, inputs: Inputs, name: string)
    requires Translate(instructions, inputs).Ok? && '=' !in name
    ensures var args := Translate(instructions, inputs).value.args;
            && (name in args <==> exists i <- instructions :: IsArg(i, name))
            && forall k :: 0 <= k < |instructions| && IsLastArg(instructions, k, name) ==>
                 name in args && args[name] == Given(instructions[k], name, inputs.buildArgs)
    decreases |instructions|
  {
    hide IsArg, Given, Step;
    if instructions != [] {
      var n := |instructions| - 1;
      var before, last := instructions[..n], instructions[n];
      assert instructions == before + [last];
      LastArgWins(before, inputs, name);
      StepArg(Translate(before, inputs).value, last, inputs, name);
      forall k | 0 <= k < n && IsLastArg(instructions, k, name)
        ensures IsLastArg(before, k, name) && before[k] == instructions[k] && !IsArg(last, name)
      {
        assert forall j :: k < j < |before| ==> before[j] == instructions[j];
      }
    }
  }

  // References.

  /** A dollar and a name stand for the argument of that name, anything else for itself. */
  lemma DollarMeans(name: string, text: string, args: map<string, string>)
    ensures Resolved("$" + name, args) == if name in args then args[name] else ""
    ensures (text == "" || text[0] != '$') ==> Resolved(text, args) == text
  {
    assert ("$" + name)[1..] == name && ("$" + name)[..1] == "$";
    assert text != "" ==> text[..1] == [text[0]];
  }

  /** What a value of ENV or WORKDIR comes to. */
  predicate Means(text: string, args: map<string, string>, value: string)
  {
    if text != "" && text[0] == '$' then value == (if text[1..] in args then args[text[1..]] else "") else value == text
  }

  lemma ResolvedMeans(text: string, args: map<string, string>)
    ensures Means(text, args, Resolved(text, args))
  {
    if text != "" && text[0] == '$' {
      assert text == "$" + text[1..];
      DollarMeans(text[1..], text, args);
    } else {
      DollarMeans("", text, args);
    }
  }

  lemma EnvAdds(before: seq<Instruction>, i: Instruction, inputs: Inputs)
    requires Translate(before, inputs).Ok? && i.cmd == ENV && |i.value| >= 2
    ensures var t, r := Translate(before, inputs).value, Translate(before + [i], inputs);
            r.Ok? && exists v :: Means(i.value[1], t.args, v) && r.value == t.(env := t.env + [i.value[0] + "=" + v])
  {
    hide Resolved, Means;
    OneMore(before, i);
    ResolvedMeans(i.value[1], Translate(before, inputs).value.args);
  }

  lemma WorkdirMoves(before: seq<Instruction>, i: Instruction, inputs: Inputs)
    requires Translate(before, inputs).Ok? && i.cmd == WORKDIR && i.value != []
    ensures var t, r := Translate(before, inputs).value, Translate(before + [i], inputs);
            && r.Ok? && Means(i.value[0], t.args, r.value.workingDir)
            && RenderAll(r.value.commands) == RenderAll(t.commands) + ["cd " + r.value.workingDir]
  {
    hide Resolved, Means;
    OneMore(before, i);
    var t := Translate(before, inputs).value;
    ResolvedMeans(i.value[0], t.args);
    RenderOneMore(t.commands, Cd(Resolved(i.value[0], t.args)));
  }

  // Scripts.

  /** A RUN adds its text without a closing "; exit 0"; making the entry point executable adds nothing. */
  lemma RunAdds(before: seq<Instruction>, i: Instruction, inputs: Inputs, body: string)
    requires Translate(before, inputs).Ok? && i.cmd == RUN && i.value != []
    ensures var t, r := Translate(before, inputs).value, Translate(before + [i], inputs);
            && r.Ok?
            && (i.value[0] == "chmod +x /home/bentoml/bento/env/docker/entrypoint.sh" ==> r.value == t)
            && (i.value[0] == body + "; exit 0" && i.value[0] != CHMOD_ENTRYPOINT ==>
                  RenderAll(r.value.commands) == RenderAll(t.commands) + [body])
            && (i.value[0] == body && i.value[0] != CHMOD_ENTRYPOINT && !Closes(body) ==>
                  RenderAll(r.value.commands) == RenderAll(t.commands) + [body])
  {
    OneMore(before, i);
    var t := Translate(before, inputs).value;
    var text := TrimSuffix(i.value[0], "; exit 0");
    assert (body + "; exit 0")[..|body|] == body && (body + "; exit 0")[|body|..] == "; exit 0";
    if HasSuffix(i.value[0], "; exit 0") {
      assert i.value[0] == text + "; exit 0";
    }
    RenderOneMore(t.commands, Script(text));
  }

  /** The text ends in "; exit 0". */
  ghost predicate Closes(text: string)
  {
    exists body :: text == body + "; exit 0"
  }

  lemma OtherAddsNothing(before: seq<Instruction>, i: Instruction, inputs: Inputs)
    requires Translate(before, inputs).Ok? && (i.cmd.Other? || (i.cmd == COPY && |i.value| >= 2 && i.value[0] == "."))
    ensures Translate(before + [i], inputs) == Translate(before, inputs)
  {
    OneMore(before, i);
  }

  lemma FromNames(before: seq<Instruction>, i: Instruction, inputs: Inputs)
    requires Translate(before, inputs).Ok? && i.cmd == FROM && i.value != []
    ensures Translate(before + [i], inputs) == Ok(Translate(before, inputs).value.(baseImage := i.value[0]))
  {
    OneMore(before, i);
  }

  // Copies.

  /** An absolute path made of proper elements. */
  function Absolute(elements: seq<string>): string
  {
    "/" + Joined(elements)
  }

  /** The directory that a file or a directory of that name lies in. */
  lemma TargetDirIs(elements: seq<string>, name: string)
    requires AllProper(elements) && Proper(name)
    ensures TargetDir(Absolute(elements + [name])) == Absolute(elements)
    ensures TargetDir(Absolute(elements + [name]) + "/") == Absolute(elements)
    ensures TargetDir(name) == "."
  {
    hide Dir, AllProper, Proper;
    DirIs(elements, name);
    LastOf(elements, name);
    var target := Absolute(elements + [name]);
    assert (target + "/")[|target|..] == "/";
    ClosedDir(elements + [name]) by { AllOf(elements, name); }
    ProperName(name);
    DirOfName(name);
  }

  lemma AllOf(elements: seq<string>, name: string)
    requires AllProper(elements) && Proper(name)
    ensures AllProper(elements + [name])
  {
  }

  lemma ProperName(name: string)
    requires Proper(name)
    ensures name != "" && !HasSuffix(name, "/") && SLASH !in name
  {
    assert name[|name| - 1..] == [name[|name| - 1]];
    assert name[|name| - 1] in name;
  }

  lemma LastOf(elements: seq<string>, name: string)
    requires Proper(name)
    ensures var target := Absolute(elements + [name]);
            !HasSuffix(target, "/") && exists head :: target == head + "/" + name
  {
    hide Proper, Joined;
    ProperName(name);
    if elements == [] {
      assert [] + [name] == [name];
      JoinedOne(name);
      assert "/" + name == "" + "/" + name;
      SuffixOf("", name);
    } else {
      JoinedAppend(elements, [name]);
      JoinedOne(name);
      assert Absolute(elements + [name]) == ("/" + Joined(elements)) + "/" + name;
      SuffixOf("/" + Joined(elements), name);
    }
  }

  lemma JoinedOne(name: string)
    ensures Joined([name]) == name
  {
  }

  lemma SuffixOf(head: string, name: string)
    requires name != "" && SLASH !in name
    ensures !HasSuffix(head + "/" + name, "/")
  {
    var s := head + "/" + name;
    assert s[|s| - 1] == name[|name| - 1] && name[|name| - 1] in name;
    assert s[|s| - 1..] == [s[|s| - 1]];
  }

  lemma {:induction false} UpToLastSlash(head: string, name: string)
    requires SLASH !in name
    ensures UpToSlash(head + "/" + name) == head + "/"
    decreases |name|
  {
    var s := head + "/" + name;
    if name == "" {
      assert s == head + "/";
    } else {
      var shorter := name[..|name| - 1];
      assert s[|s| - 1] == name[|name| - 1] && name[|name| - 1] in name;
      assert s[..|s| - 1] == head + "/" + shorter;
      assert forall c <- shorter :: c in name;
      UpToLastSlash(head, shorter);
    }
  }

  /** A closing slash is cleaned away. */
  lemma CleanClosed(elements: seq<string>)
    requires AllProper(elements)
    ensures Clean(if elements == [] then "/" else Absolute(elements) + "/") == Absolute(elements)
  {
    hide Split, Normal, Proper, Joined;
    var path := if elements == [] then "/" else Absolute(elements) + "/";
    ClosedElements(elements);
    EmptyEnds(elements);
    assert Rooted(path);
  }

  lemma ClosedElements(elements: seq<string>)
    requires AllProper(elements)
    ensures Split(if elements == [] then "/" else Absolute(elements) + "/") == [""] + elements + [""]
  {
    hide Proper, Grown;
    SplitElement("");
    SplitAtSlash("", "");
    assert "" + "/" + "" == "/";
    if elements != [] {
      forall e <- elements ensures SLASH !in e { ProperName(e); }
      SplitJoined(elements);
      SplitAtSlash("", Joined(elements));
      assert "" + "/" + Joined(elements) == Absolute(elements);
      SplitAtSlash(Absolute(elements), "");
      assert Absolute(elements) + "/" + "" == Absolute(elements) + "/";
    } else {
      assert [""] + [] + [""] == [""] + [""];
    }
  }

  lemma EmptyEnds(elements: seq<string>)
    requires AllProper(elements)
    ensures Normal([""] + elements + [""], true) == elements
  {
    var all := [""] + elements + [""];
    assert all[..|all| - 1] == [""] + elements;
    NormalKeepsProper([""], elements, true);
    assert [""][..0] == [];
    assert Normal([""], true) == [];
    assert [] + elements == elements;
  }

  lemma DirIs(elements: seq<string>, name: string)
    requires AllProper(elements) && Proper(name)
    ensures Dir(Absolute(elements + [name])) == Absolute(elements)
  {
    hide Proper, Clean, Joined;
    ProperName(name);
    CleanClosed(elements);
    JoinedOne(name);
    if elements == [] {
      assert [] + [name] == [name];
      UpToLastSlash("", name);
      assert "" + "/" + name == "/" + name && "" + "/" == "/";
    } else {
      JoinedAppend(elements, [name]);
      assert Absolute(elements + [name]) == Absolute(elements) + "/" + name;
      UpToLastSlash(Absolute(elements), name);
    }
  }

  lemma ClosedDir(elements: seq<string>)
    requires AllProper(elements) && elements != []
    ensures Dir(Absolute(elements) + "/") == Absolute(elements)
  {
    hide Proper, Clean;
    CleanClosed(elements);
    UpToLastSlash(Absolute(elements), "");
    assert Absolute(elements) + "/" + "" == Absolute(elements) + "/";
  }

  lemma DirOfName(name: string)
    requires SLASH !in name
    ensures Dir(name) == "."
  {
    NoSlashAtAll(name);
    assert Split("") == [""];
    assert [""][..0] == [];
    assert Normal([""], false) == [];
  }

  lemma {:induction false} NoSlashAtAll(name: string)
    requires SLASH !in name
    ensures UpToSlash(name) == ""
    decreases |name|
  {
    if name != "" {
      assert name[|name| - 1] in name;
      assert forall c <- name[..|name| - 1] :: c in name;
      NoSlashAtAll(name[..|name| - 1]);
    }
  }

  /**
   A COPY of a path inside a clean context into a directory hashes the file in the context, and emits
   the mkdir of that directory, the cp from ${CONTEXT} and, with the flag, the chown.
   */
  lemma CopyAdds(before: seq<Instruction>, i: Instruction, inputs: Inputs, elements: seq<string>, name: string)
    requires Translate(before, inputs).Ok? && i.cmd == COPY && |i.value| == 2 && i.flags != []
    requires GoodContext(inputs.contextPath) && InsidePath(i.value[0])
    requires AllProper(elements) && Proper(name)
    requires i.value[1] == Absolute(elements + [name]) || i.value[1] == Absolute(elements + [name]) + "/"
    requires inputs.hashFile(inputs.contextPath + "/" + i.value[0]).Some?
    ensures var t, r := Translate(before, inputs).value, Translate(before + [i], inputs);
            && r.Ok?
            && r.value.hashes == t.hashes + [inputs.hashFile(inputs.contextPath + "/" + i.value[0]).value]
            && RenderAll(r.value.commands) == RenderAll(t.commands)
                 + ["mkdir -p " + Absolute(elements), "cp -a ${CONTEXT}/" + i.value[0] + " " + i.value[1]]
                 + if i.flags[0] == "--chown=bentoml:bentoml" then ["chown -R bentoml:bentoml " + i.value[1]] else []
  {
    hide Step, InsidePath, Proper, AllProper, GoodContext, Absolute, CopyCommands, SourcePath, Render, RenderAll;
    OneMore(before, i);
    var t, source, target := Translate(before, inputs).value, i.value[0], i.value[1];
    InsideIsRelative(source);
    InsideCopy(source, target, i.flags[0] == CHOWN_FLAG, inputs, elements, name);
    CopyStep(t, i, inputs);
    var rest := if i.flags[0] == CHOWN_FLAG then [Chown(target)] else [];
    RenderTwo(t.commands, Mkdir(Absolute(elements)), Cp(CONTEXT + "/" + source, target), rest);
    CpText(source, target);
    MoreText(Absolute(elements), target);
  }

  lemma MoreText(dir: string, target: string)
    ensures Render(Mkdir(dir)) == "mkdir -p " + dir && Render(Chown(target)) == "chown -R bentoml:bentoml " + target
  {
  }

  lemma CopyStep(t: Translation, i: Instruction, inputs: Inputs)
    requires i.cmd == COPY && |i.value| == 2 && i.flags != [] && i.value[0] != "." && i.value[0] != ""
    requires inputs.hashFile(SourcePath(i.value[0], inputs)).Some?
    ensures Step(t, i, inputs) == Ok(t.(
              hashes := t.hashes + [inputs.hashFile(SourcePath(i.value[0], inputs)).value],
              commands := t.commands + CopyCommands(i.value[0], i.value[1], i.flags[0] == CHOWN_FLAG, inputs)))
  {
    hide CopyCommands, SourcePath;
  }

  lemma InsideCopy(source: string, target: string, chown: bool, inputs: Inputs, elements: seq<string>, name: string)
    requires GoodContext(inputs.contextPath) && InsidePath(source) && AllProper(elements) && Proper(name)
    requires target == Absolute(elements + [name]) || target == Absolute(elements + [name]) + "/"
    ensures SourcePath(source, inputs) == inputs.contextPath + "/" + source
    ensures CopyCommands(source, target, chown, inputs)
         == [Mkdir(Absolute(elements)), Cp(CONTEXT + "/" + source, target)] + if chown then [Chown(target)] else []
  {
    hide TargetDir, JoinPaths, ReplaceFirst, InsidePath, Proper, AllProper, Clean, Joined;
    TargetDirIs(elements, name);
    InsideIsRelative(source);
    JoinInside(inputs.contextPath, source);
    RelocatedIff(inputs.contextPath, source);
    assert Absolute(elements)[0] == SLASH;
  }

  /** A COPY of an absolute path to a plain name keeps the path and makes no directory. */
  lemma AbsoluteCopyAdds(before: seq<Instruction>, i: Instruction, inputs: Inputs)
    requires Translate(before, inputs).Ok? && i.cmd == COPY && |i.value| == 2 && i.flags != []
    requires Rooted(i.value[0]) && Proper(i.value[1]) && inputs.hashFile(i.value[0]).Some?
    ensures var t, r := Translate(before, inputs).value, Translate(before + [i], inputs);
            && r.Ok? && r.value.hashes == t.hashes + [inputs.hashFile(i.value[0]).value]
            && RenderAll(r.value.commands) == RenderAll(t.commands) + ["cp -a " + i.value[0] + " " + i.value[1]]
                 + if i.flags[0] == "--chown=bentoml:bentoml" then ["chown -R bentoml:bentoml " + i.value[1]] else []
  {
    hide Step, Proper, TargetDir, Render, RenderAll;
    OneMore(before, i);
    var t, source, target := Translate(before, inputs).value, i.value[0], i.value[1];
    TargetDirIs([], target);
    CopyStep(t, i, inputs);
    var rest := if i.flags[0] == CHOWN_FLAG then [Chown(target)] else [];
    assert CopyCommands(source, target, i.flags[0] == CHOWN_FLAG, inputs) == [] + [Cp(source, target)] + rest;
    assert [] + [Cp(source, target)] + rest == [Cp(source, target)] + rest;
    RenderNext(t.commands, Cp(source, target), rest);
    MoreText("", target);
    assert Render(Cp(source, target)) == "cp -a " + source + " " + target by { CpSays(source, target); }
  }

  lemma CpSays(source: string, target: string)
    ensures Render(Cp(source, target)) == "cp -a " + source + " " + target
  {
  }

  lemma RenderNext(commands: seq<Shell>, a: Shell, rest: seq<Shell>)
    ensures RenderAll(commands + ([a] + rest)) == RenderAll(commands) + [Render(a)] + RenderAll(rest)
    ensures rest == [] ==> RenderAll(rest) == []
    ensures |rest| == 1 ==> RenderAll(rest) == [Render(rest[0])]
  {
    hide Render;
  }

  lemma CpText(source: string, target: string)
    ensures Render(Cp(CONTEXT + "/" + source, target)) == "cp -a ${CONTEXT}/" + source + " " + target
  {
    assert "cp -a " + (CONTEXT + "/" + source) == "cp -a ${CONTEXT}/" + source;
  }

  lemma RenderTwo(commands: seq<Shell>, a: Shell, b: Shell, rest: seq<Shell>)
    ensures RenderAll(commands + ([a, b] + rest)) == RenderAll(commands) + [Render(a), Render(b)] + RenderAll(rest)
    ensures rest == [] ==> RenderAll(rest) == []
    ensures |rest| == 1 ==> RenderAll(rest) == [Render(rest[0])]
  {
    hide Render;
  }

  lemma InsideIsRelative(path: string)
    requires InsidePath(path)
    ensures Relative(path) && path != "." && path != ""
  {
    hide Clean;
  }

  // The hash of it all.

  /**
   The image hash covers the base image, the file hashes, the commands and the environment: for an
   injective hash function, of two translations that differ in one of these only, and where the file
   hashes have no colon in them, the image hashes are equal exactly when the translations are.
   */
  lemma ImageHashTells(a: Translation, b: Translation, blake3: string -> string)
    requires forall x, y :: blake3(x) == blake3(y) ==> x == y
    ensures a == b.(baseImage := a.baseImage) ==>
              (Info(a, blake3).hash == Info(b, blake3).hash <==> a.baseImage == b.baseImage)
    ensures a == b.(hashes := a.hashes) && (forall h <- a.hashes + b.hashes :: h != "" && ':' !in h) ==>
              (Info(a, blake3).hash == Info(b, blake3).hash <==> a.hashes == b.hashes)
    ensures a == b.(commands := a.commands) ==>
              (Info(a, blake3).hash == Info(b, blake3).hash <==>
                 Join(RenderAll(a.commands), ":") == Join(RenderAll(b.commands), ":"))
    ensures a == b.(env := a.env) ==>
              (Info(a, blake3).hash == Info(b, blake3).hash <==> Join(a.env, ":") == Join(b.env, ":"))
  {
    hide Info, Join, RenderAll;
    if a == b.(baseImage := a.baseImage) {
      BaseTells(a, b, blake3);
    }
    if a == b.(hashes := a.hashes) {
      FilesTell(a, b, blake3);
      if forall h <- a.hashes + b.hashes :: h != "" && ':' !in h {
        JoinTells(a.hashes, b.hashes);
      }
    }
    if a == b.(commands := a.commands) {
      CommandsTell(a, b, blake3);
    }
    if a == b.(env := a.env) {
      EnvTells(a, b, blake3);
    }
  }

  lemma BaseTells(a: Translation, b: Translation, blake3: string -> string)
    requires (forall x, y :: blake3(x) == blake3(y) ==> x == y) && a == b.(baseImage := a.baseImage)
    ensures Info(a, blake3).hash == Info(b, blake3).hash <==> a.baseImage == b.baseImage
  {
    hide RenderAll, Join, Info;
    HashParts(a, blake3);
    HashParts(b, blake3);
    var rest := "__" + Join(a.hashes, ":") + "__" + Join(RenderAll(a.commands), ":") + "__" + Join(a.env, ":");
    SameAround("", a.baseImage, b.baseImage, rest);
  }

  lemma FilesTell(a: Translation, b: Translation, blake3: string -> string)
    requires (forall x, y :: blake3(x) == blake3(y) ==> x == y) && a == b.(hashes := a.hashes)
    ensures Info(a, blake3).hash == Info(b, blake3).hash <==> Join(a.hashes, ":") == Join(b.hashes, ":")
  {
    hide RenderAll, Join, Info;
    HashParts(a, blake3);
    HashParts(b, blake3);
    var rest := "__" + Join(RenderAll(a.commands), ":") + "__" + Join(a.env, ":");
    SameAround(a.baseImage + "__", Join(a.hashes, ":"), Join(b.hashes, ":"), rest);
  }

  lemma CommandsTell(a: Translation, b: Translation, blake3: string -> string)
    requires (forall x, y :: blake3(x) == blake3(y) ==> x == y) && a == b.(commands := a.commands)
    ensures Info(a, blake3).hash == Info(b, blake3).hash <==>
            Join(RenderAll(a.commands), ":") == Join(RenderAll(b.commands), ":")
  {
    hide RenderAll, Join, Info;
    HashParts(a, blake3);
    HashParts(b, blake3);
    var head := a.baseImage + "__" + Join(a.hashes, ":") + "__";
    SameAround(head, Join(RenderAll(a.commands), ":"), Join(RenderAll(b.commands), ":"), "__" + Join(a.env, ":"));
  }

  lemma EnvTells(a: Translation, b: Translation, blake3: string -> string)
    requires (forall x, y :: blake3(x) == blake3(y) ==> x == y) && a == b.(env := a.env)
    ensures Info(a, blake3).hash == Info(b, blake3).hash <==> Join(a.env, ":") == Join(b.env, ":")
  {
    hide RenderAll, Join, Info;
    HashParts(a, blake3);
    HashParts(b, blake3);
    var head := a.baseImage + "__" + Join(a.hashes, ":") + "__" + Join(RenderAll(a.commands), ":") + "__";
    SameAround(head, Join(a.env, ":"), Join(b.env, ":"), "");
  }

  lemma HashParts(t: Translation, blake3: string -> string)
    ensures var h, c, e := Join(t.hashes, ":"), Join(RenderAll(t.commands), ":"), Join(t.env, ":");
            && Info(t, blake3).hash == blake3("" + t.baseImage + ("__" + h + "__" + c + "__" + e))
            && Info(t, blake3).hash == blake3((t.baseImage + "__") + h + ("__" + c + "__" + e))
            && Info(t, blake3).hash == blake3((t.baseImage + "__" + h + "__") + c + ("__" + e))
            && Info(t, blake3).hash == blake3((t.baseImage + "__" + h + "__" + c + "__") + e + "")
  {
    hide RenderAll, Join;
    var h, c, e := Join(t.hashes, ":"), Join(RenderAll(t.commands), ":"), Join(t.env, ":");
    var whole := t.baseImage + "__" + h + "__" + c + "__" + e;
    assert "" + t.baseImage + ("__" + h + "__" + c + "__" + e) == whole;
    assert (t.baseImage + "__") + h + ("__" + c + "__" + e) == whole;
    assert (t.baseImage + "__" + h + "__") + c + ("__" + e) == whole;
    assert (t.baseImage + "__" + h + "__" + c + "__") + e + "" == whole;
  }

  lemma SameAround(before: string, a: string, b: string, after: string)
    ensures before + a + after == before + b + after <==> a == b
  {
    if before + a + after == before + b + after {
      assert |a| == |b|;
      assert (before + a + after)[|before|..|before| + |a|] == a;
      assert (before + b + after)[|before|..|before| + |b|] == b;
    }
  }

  lemma JoinTells(a: seq<string>, b: seq<string>)
    requires forall h <- a + b :: h != "" && ':' !in h
    ensures Join(a, ":") == Join(b, ":") <==> a == b
  {
    hide FreeOf, Cut;
    forall h <- a + b ensures FreeOf(h, ":") { ColonFree(h); }
    forall h <- a ensures FreeOf(h, ":") && h != "" { assert h in a + b; }
    forall h <- b ensures FreeOf(h, ":") && h != "" { assert h in a + b; }
    if a != [] {
      CutJoined(a, ":");
      assert a[0] in a;
    }
    if b != [] {
      CutJoined(b, ":");
      assert b[0] in b;
    }
  }

  lemma ColonFree(h: string)
    requires ':' !in h
    ensures FreeOf(h, ":")
  {
    forall k | 0 <= k < |h| ensures !(":" <= (h + ":")[k..]) {
      assert (h + ":")[k..][0] == h[k];
    }
  }
}
