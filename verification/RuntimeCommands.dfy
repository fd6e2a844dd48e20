// The runtime's slash commands and the read-only gate in front of them
// (cmd/elnath/runtime_command_execute_tool.go and the handlers of runtime_provider.go,
// runtime_model.go, runtime_effort.go and runtime_plan.go).
module RuntimeCommands {
  import opened Wrappers
  import opened Text
  import opened CaseFolding
  import opened PlanMode

  datatype Command = Version | Status | Commands | Help | Skills | Provider | Model | Effort | PlanCommand | Unknown

  // A name is trimmed, and given its slash.
  function Slashed(name: string): string {
    var trimmed := TrimSpace(name);
    if trimmed == "" || "/" <= trimmed then trimmed else "/" + trimmed
  }

  // The command a slash name stands for, after normalisation of the name.
  function CommandOf(name: string): Command {
    var slashed := Slashed(name);
    if slashed == "/version" then Version
    else if slashed == "/status" then Status
    else if slashed == "/commands" then Commands
    else if slashed == "/help" then Help
    else if slashed == "/skills" then Skills
    else if slashed == "/provider" then Provider
    else if slashed == "/model" then Model
    else if slashed == "/effort" then Effort
    else if slashed == "/plan" then PlanCommand
    else Unknown
  }

  // A command is called by its name, with or without the slash.
  predicate Calls(name: string, word: string) {
    TrimSpace(name) == word || TrimSpace(name) == "/" + word
  }

  lemma SlashedIs(name: string, word: string, command: string)
    requires command == "/" + word && word != "" && word[0] != '/'
    ensures Slashed(name) == command <==> Calls(name, word)
  {
    var trimmed := TrimSpace(name);
    assert command[1..] == word;
    if Slashed(name) == command && Slashed(name) != trimmed {
      assert ("/" + trimmed)[1..] == trimmed;
    }
  }

  lemma CommandsByName(name: string)
    ensures CommandOf(name) == Version <==> Calls(name, "version")
    ensures CommandOf(name) == Status <==> Calls(name, "status")
    ensures CommandOf(name) == Commands <==> Calls(name, "commands")
    ensures CommandOf(name) == Help <==> Calls(name, "help")
    ensures CommandOf(name) == Skills <==> Calls(name, "skills")
    ensures CommandOf(name) == Provider <==> Calls(name, "provider")
    ensures CommandOf(name) == Model <==> Calls(name, "model")
    ensures CommandOf(name) == Effort <==> Calls(name, "effort")
    ensures CommandOf(name) == PlanCommand <==> Calls(name, "plan")
  {
    SlashedIs(name, "version", "/version");
    SlashedIs(name, "status", "/status");
    SlashedIs(name, "commands", "/commands");
    SlashedIs(name, "help", "/help");
    SlashedIs(name, "skills", "/skills");
    SlashedIs(name, "provider", "/provider");
    SlashedIs(name, "model", "/model");
    SlashedIs(name, "effort", "/effort");
    SlashedIs(name, "plan", "/plan");
  }

  // Arguments are trimmed, and blank ones dropped.
  function NormalizeArgs(args: seq<string>): seq<string> {
    if args == [] then []
    else
      var last := TrimSpace(args[|args| - 1]);
      NormalizeArgs(args[..|args| - 1]) + if last == "" then [] else [last]
  }

  lemma {:induction false} NormalizeAddsNothing(args: seq<string>, c: char)
    requires forall i :: 0 <= i < |args| ==> c !in args[i]
    ensures forall i :: 0 <= i < |NormalizeArgs(args)| ==> c !in NormalizeArgs(args)[i]
  {
    if args != [] {
      NormalizeAddsNothing(args[..|args| - 1], c);
      TrimSpaceTrims(args[|args| - 1]);
    }
  }

  // The words left are the trimmed arguments that say something ...
  lemma {:induction false} NormalizedAre(args: seq<string>, word: string)
    ensures word in NormalizeArgs(args) <==> word != "" && exists arg :: arg in args && TrimSpace(arg) == word
  {
    if args != [] {
      var n := |args| - 1;
      NormalizedAre(args[..n], word);
      assert args == args[..n] + [args[n]];
    }
  }

  // ... in order.
  lemma {:induction false} NormalizedInOrder(args: seq<string>, more: seq<string>)
    ensures NormalizeArgs(args + more) == NormalizeArgs(args) + NormalizeArgs(more)
    decreases |more|
  {
    if more == [] {
      assert args + more == args;
    } else {
      var n := |more| - 1;
      assert (args + more)[..|args| + n] == args + more[..n];
      NormalizedInOrder(args, more[..n]);
    }
  }

  // What a handler answers; its text is not modelled.
  datatype Reply = Usage | Report | Invalid | Changed | Failed | Unavailable | NotReadOnly | Unsupported

  // What the conversation manager is told about the provider.
  datatype Manager = Manager(provider: string, contextWindow: int)

  // The part of the runtime the handlers can change. manager is None without a conversation
  // manager, control without a controller or without a permission engine behind it.
  datatype RuntimeState = RuntimeState(
    provider: string,
    model: string,
    effort: string,
    effortMode: string,
    compressionMax: int,
    manager: Option<Manager>,
    control: Option<Control>)

  // A provider built for a selection.
  datatype Built = Built(provider: string, model: string, contextWindow: int)

  // The configuration: which selections pass the check, which can be built, the compression
  // budget for a context window, and whether this session may switch.
  datatype Env = Env(checks: string -> bool, builds: string -> Option<Built>, budget: int -> int, switchAvailable: bool)

  datatype Outcome = Outcome(state: RuntimeState, reply: Reply)

  const HELP_WORDS: seq<string> := ["help", "-h", "--help"]
  const STATUS_WORDS: seq<string> := ["current", "status"]

  predicate OneOf(word: string, words: seq<string>) {
    exists i :: 0 <= i < |words| && words[i] == word
  }

  lemma WordsAre(word: string)
    ensures OneOf(word, HELP_WORDS) <==> word in {"help", "-h", "--help"}
    ensures OneOf(word, STATUS_WORDS) <==> word in {"current", "status"}
    ensures OneOf(word, ["exit", "off"]) <==> word in {"exit", "off"}
    ensures OneOf(word, ["default", "provider-default", "unset"]) <==> word in {"default", "provider-default", "unset"}
    ensures OneOf(word, ["auto", "unset"]) <==> word in {"auto", "unset"}
    ensures OneOf(word, ["none", "minimal", "low", "medium", "high", "xhigh"]) <==>
      word in {"none", "minimal", "low", "medium", "high", "xhigh"}
    ensures OneOf(word, ["use", "switch"]) <==> word in {"use", "switch"}
    ensures OneOf(word, ["route", "candidates"]) <==> word in {"route", "candidates"}
  {
    OneOfThree(word, "help", "-h", "--help");
    OneOfTwo(word, "current", "status");
    OneOfTwo(word, "exit", "off");
    OneOfThree(word, "default", "provider-default", "unset");
    OneOfTwo(word, "auto", "unset");
    OneOfThree(word, "none", "minimal", "low");
    OneOfThree(word, "medium", "high", "xhigh");
    OneOfSplit(word, ["none", "minimal", "low"], ["medium", "high", "xhigh"]);
    assert ["none", "minimal", "low"] + ["medium", "high", "xhigh"]
        == ["none", "minimal", "low", "medium", "high", "xhigh"];
    OneOfTwo(word, "use", "switch");
    OneOfTwo(word, "route", "candidates");
  }

  lemma OneOfSplit(word: string, a: seq<string>, b: seq<string>)
    ensures OneOf(word, a + b) <==> OneOf(word, a) || OneOf(word, b)
  {
    var all := a + b;
    assert forall i :: 0 <= i < |a| ==> all[i] == a[i];
    assert forall i :: 0 <= i < |b| ==> all[|a| + i] == b[i];
  }

  lemma OneOfTwo(word: string, a: string, b: string)
    ensures OneOf(word, [a, b]) <==> word == a || word == b
  {
    assert [a, b][0] == a && [a, b][1] == b;
  }

  lemma OneOfThree(word: string, a: string, b: string, c: string)
    ensures OneOf(word, [a, b, c]) <==> word == a || word == b || word == c
  {
    assert [a, b, c][0] == a && [a, b, c][1] == b && [a, b, c][2] == c;
  }

  // How the handlers read an argument.
  function Word(arg: string): string {
    ToLower(TrimSpace(arg))
  }

  // ---- Handlers ----------------------------------------------------------------------------

  function ApplyModel(args: seq<string>, s: RuntimeState): Outcome {
    if |args| == 0 then Outcome(s, Report)
    else if |args| > 1 then Outcome(s, Invalid)
    else if OneOf(Word(args[0]), HELP_WORDS) then Outcome(s, Usage)
    else if OneOf(Word(args[0]), STATUS_WORDS) then Outcome(s, Report)
    else if OneOf(Word(args[0]), ["default", "provider-default", "unset"]) then Outcome(s.(model := ""), Changed)
    else Outcome(s.(model := TrimSpace(args[0])), Changed)
  }

  function ApplyEffort(args: seq<string>, s: RuntimeState): Outcome {
    if |args| == 0 then Outcome(s, Report)
    else if |args| > 1 then Outcome(s, Invalid)
    else
      var word := Word(args[0]);
      if OneOf(word, HELP_WORDS) then Outcome(s, Usage)
      else if OneOf(word, STATUS_WORDS) then Outcome(s, Report)
      else if OneOf(word, ["auto", "unset"]) then Outcome(s.(effortMode := "auto", effort := ""), Changed)
      else if word == "max" then Outcome(s.(effortMode := "manual", effort := "xhigh"), Changed)
      else if OneOf(word, ["none", "minimal", "low", "medium", "high", "xhigh"]) then
        Outcome(s.(effortMode := "manual", effort := word), Changed)
      else Outcome(s, Invalid)
  }

  function Steered(s: RuntimeState, f: Control -> Control): Outcome {
    if s.control.None? then Outcome(s, Unavailable) else Outcome(s.(control := Some(f(s.control.value))), Changed)
  }

  function ApplyPlan(args: seq<string>, s: RuntimeState): Outcome {
    if |args| == 1 && OneOf(Word(args[0]), HELP_WORDS) then Outcome(s, Usage)
    else if |args| == 1 && OneOf(Word(args[0]), STATUS_WORDS) then Outcome(s, Report)
    else if |args| == 1 && OneOf(Word(args[0]), ["exit", "off"]) then Steered(s, Exited)
    else if |args| > 0 && "-" <= TrimSpace(args[0]) then Outcome(s, Invalid)
    else Steered(s, Entered)
  }

  function Names(args: seq<string>): seq<string> {
    if args == [] then []
    else
      var last := TrimSpace(args[|args| - 1]);
      Names(args[..|args| - 1]) + if last == "" || EqualFold(last, "--json") then [] else [last]
  }

  // The one provider named among the arguments, None when there is none or more than one.
  function NamedProvider(args: seq<string>): Option<string> {
    var names := Names(args);
    if |args| == 0 || |args| > 2 || |names| != 1 then None else Some(names[0])
  }

  // An argument that names no provider.
  predicate Skipped(arg: string) {
    TrimSpace(arg) == "" || EqualFold(TrimSpace(arg), "--json")
  }

  // The name at position i is the only one among the arguments.
  predicate OnlyName(args: seq<string>, i: int, name: string) {
    && 0 <= i < |args| && !Skipped(args[i]) && TrimSpace(args[i]) == name
    && forall j :: 0 <= j < |args| && j != i ==> Skipped(args[j])
  }

  function NameIn(arg: string): seq<string> {
    if Skipped(arg) then [] else [TrimSpace(arg)]
  }

  lemma NamesSnoc(args: seq<string>, arg: string)
    ensures Names(args + [arg]) == Names(args) + NameIn(arg)
  {
    assert (args + [arg])[..|args|] == args;
  }

  lemma NamesOfOne(arg: string)
    ensures Names([arg]) == NameIn(arg)
  {
    NamesSnoc([], arg);
    assert [] + [arg] == [arg];
  }

  lemma NamesOfTwo(a: string, b: string)
    ensures Names([a, b]) == NameIn(a) + NameIn(b)
  {
    NamesOfOne(a);
    NamesSnoc([a], b);
    assert [a] + [b] == [a, b];
  }

  lemma NamedExactly(args: seq<string>, name: string)
    ensures NamedProvider(args) == Some(name) <==> 1 <= |args| <= 2 && exists i :: OnlyName(args, i, name)
  {
    if 1 <= |args| <= 2 {
      if |args| == 1 {
        assert args == [args[0]];
        NamesOfOne(args[0]);
      } else {
        assert args == [args[0], args[1]];
        NamesOfTwo(args[0], args[1]);
      }
      if NamedProvider(args) == Some(name) {
        assert OnlyName(args, if Skipped(args[0]) then 1 else 0, name);
      }
    }
  }

  function Informed(m: Option<Manager>, built: Built): Option<Manager> {
    if m.Some? then Some(Manager(built.provider, built.contextWindow)) else None
  }

  function SwitchProvider(env: Env, name: string, s: RuntimeState): Outcome {
    var built := env.builds(name);
    if !env.checks(name) || !env.switchAvailable || built.None? then Outcome(s, Failed)
    else Outcome(s.(provider := built.value.provider, model := built.value.model,
                    compressionMax := env.budget(built.value.contextWindow),
                    manager := Informed(s.manager, built.value)), Changed)
  }

  // A sub-command that reports, perhaps as JSON.
  function ReportOrInvalid(args: seq<string>): Reply {
    if |args| == 0 || (|args| == 1 && Word(args[0]) == "--json") then Report else Invalid
  }

  function ApplyProvider(env: Env, args: seq<string>, s: RuntimeState): Outcome {
    if |args| == 0 then Outcome(s, Report)
    else
      var word := Word(args[0]);
      if OneOf(word, HELP_WORDS) then Outcome(s, if |args| > 1 then Invalid else Usage)
      else if word == "--json" then Outcome(s, if |args| > 1 then Invalid else Report)
      else if OneOf(word, STATUS_WORDS) || OneOf(word, ["route", "candidates"]) then
        Outcome(s, ReportOrInvalid(args[1..]))
      else
        var name := NamedProvider(args[1..]);
        if word == "check" then
          Outcome(s, if name.None? then Invalid else if env.checks(name.value) then Report else Failed)
        else if OneOf(word, ["use", "switch"]) then
          if name.None? then Outcome(s, Invalid) else SwitchProvider(env, name.value, s)
        else Outcome(s, Unavailable)
  }

  // The commands that only look: /version and /status take one argument, the catalogs any flags.
  function ApplyQuery(args: seq<string>): Reply {
    if |args| == 0 then Report
    else if |args| == 1 && OneOf(Word(args[0]), HELP_WORDS) then Usage
    else if |args| == 1 && Word(args[0]) == "--json" then Report
    else Invalid
  }

  predicate IsCatalogFlag(arg: string) {
    OneOf(Word(arg), ["--json", "--all", "--hidden"])
  }

  function ApplyCatalog(args: seq<string>): Reply {
    if args == [] then Report
    else if OneOf(Word(args[0]), HELP_WORDS) then Usage
    else if IsCatalogFlag(args[0]) then ApplyCatalog(args[1..])
    else Invalid
  }

  lemma QueryReplies(args: seq<string>)
    ensures ApplyQuery(args) == Report <==> args == [] || (|args| == 1 && Word(args[0]) == "--json")
    ensures ApplyQuery(args) == Usage <==> |args| == 1 && Word(args[0]) in {"help", "-h", "--help"}
  {
    if |args| == 1 {
      WordsAre(Word(args[0]));
    }
  }

  // A catalog reports on flags alone; the first other word decides: a help word, or not.
  lemma {:induction false} CatalogReplies(args: seq<string>, k: nat)
    requires k <= |args| && forall i :: 0 <= i < k ==> IsCatalogFlag(args[i])
    requires k < |args| ==> !IsCatalogFlag(args[k])
    ensures ApplyCatalog(args)
         == if k == |args| then Report else if Word(args[k]) in {"help", "-h", "--help"} then Usage else Invalid
  {
    if args != [] {
      WordsAre(Word(args[0]));
      OneOfThree(Word(args[0]), "--json", "--all", "--hidden");
      if k > 0 {
        CatalogReplies(args[1..], k - 1);
      }
    }
  }

  function Apply(env: Env, command: Command, args: seq<string>, s: RuntimeState): Outcome {
    match command
    case Version | Status => Outcome(s, ApplyQuery(args))
    case Commands | Help | Skills => Outcome(s, ApplyCatalog(args))
    case Provider => ApplyProvider(env, args, s)
    case Model => ApplyModel(args, s)
    case Effort => ApplyEffort(args, s)
    case PlanCommand => ApplyPlan(args, s)
    case Unknown => Outcome(s, Unsupported)
  }

  // ---- The gate ----------------------------------------------------------------------------

  predicate MatchesOption(args: seq<string>, option: seq<string>) {
    |args| == |option| && forall i :: 0 <= i < |args| ==> EqualFold(args[i], option[i])
  }

  predicate MatchesAny(args: seq<string>, allowed: seq<seq<string>>) {
    exists k :: 0 <= k < |allowed| && MatchesOption(args, allowed[k])
  }

  const QUERY_OPTIONS: seq<seq<string>> := [[], ["--json"], ["help"], ["-h"], ["--help"]]
  const PLAN_OPTIONS: seq<seq<string>> := [["status"], ["current"], ["help"], ["-h"], ["--help"]]
  const SETTING_OPTIONS: seq<seq<string>> := [[]] + PLAN_OPTIONS
  const CATALOG_WORDS: seq<string> := ["help", "-h", "--help", "--json", "--all", "--hidden"]

  predicate CatalogReadOnly(args: seq<string>) {
    forall i :: 0 <= i < |args| ==> OneOf(ToLower(args[i]), CATALOG_WORDS)
  }

  predicate ProviderReadOnly(args: seq<string>) {
    if |args| == 0 then true
    else
      var word := ToLower(args[0]);
      if OneOf(word, HELP_WORDS) || word == "--json" then |args| == 1
      else if OneOf(word, STATUS_WORDS) || OneOf(word, ["route", "candidates"]) then
        |args| == 1 || (|args| == 2 && EqualFold(args[1], "--json"))
      else if word == "check" then |args| == 2 || (|args| == 3 && EqualFold(args[2], "--json"))
      else false
  }

  predicate ReadOnly(command: Command, args: seq<string>) {
    match command
    case Version | Status => MatchesAny(args, QUERY_OPTIONS)
    case Commands | Help | Skills => CatalogReadOnly(args)
    case Provider => ProviderReadOnly(args)
    case Model | Effort => MatchesAny(args, SETTING_OPTIONS)
    case PlanCommand => MatchesAny(args, PLAN_OPTIONS)
    case Unknown => false
  }

  method ArgsMatchAny(args: seq<string>, allowed: seq<seq<string>>) returns (found: bool)
    ensures found <==> MatchesAny(args, allowed)
  {
    for k := 0 to |allowed|
      invariant forall m :: 0 <= m < k ==> !MatchesOption(args, allowed[m])
    {
      var option := allowed[k];
      if |args| != |option| {
        continue;
      }
      var matches := true;
      for i := 0 to |args|
        invariant matches ==> forall j :: 0 <= j < i ==> EqualFold(args[j], option[j])
        invariant !matches ==> !MatchesOption(args, option)
      {
        if !EqualFold(args[i], option[i]) {
          matches := false;
          break;
        }
      }
      if matches {
        return true;
      }
    }
    found := false;
  }

  // runtimeCatalogCommandReadOnlyArgs
  method CatalogArgsAreReadOnly(args: seq<string>) returns (readOnly: bool)
    ensures readOnly <==> CatalogReadOnly(args)
  {
    for i := 0 to |args|
      invariant CatalogReadOnly(args[..i])
    {
      if !OneOf(ToLower(args[i]), CATALOG_WORDS) {
        return false;
      }
    }
    assert args[..|args|] == args;
    readOnly := true;
  }

  // ---- What the gate accepts ---------------------------------------------------------------

  // The one argument is one of the words, in any case.
  predicate IsWordOf(args: seq<string>, words: set<string>) {
    |args| == 1 && exists word :: word in words && EqualFold(args[0], word)
  }

  lemma MatchesWord(args: seq<string>, options: seq<seq<string>>, words: set<string>)
    requires forall k :: 0 <= k < |options| && options[k] != [] ==> |options[k]| == 1 && options[k][0] in words
    requires forall word :: word in words ==> [word] in options
    ensures MatchesAny(args, options) <==> ([] in options && args == []) || IsWordOf(args, words)
  {
    if MatchesAny(args, options) {
      var k :| 0 <= k < |options| && MatchesOption(args, options[k]);
      assert options[k] in options;
    }
    if [] in options && args == [] {
      var k :| 0 <= k < |options| && options[k] == [];
      assert MatchesOption(args, options[k]);
    }
    if IsWordOf(args, words) {
      var word :| word in words && EqualFold(args[0], word);
      var k :| 0 <= k < |options| && options[k] == [word];
      assert MatchesOption(args, options[k]);
    }
  }

  lemma CatalogWordsAre(word: string)
    ensures OneOf(word, CATALOG_WORDS) <==> word in {"help", "-h", "--help", "--json", "--all", "--hidden"}
  {
    OneOfThree(word, "help", "-h", "--help");
    OneOfThree(word, "--json", "--all", "--hidden");
    OneOfSplit(word, ["help", "-h", "--help"], ["--json", "--all", "--hidden"]);
    assert ["help", "-h", "--help"] + ["--json", "--all", "--hidden"] == CATALOG_WORDS;
  }

  // The catalogs are let through with any of their flags.
  lemma CatalogGateAccepts(c: Command, args: seq<string>)
    requires c == Commands || c == Help || c == Skills
    ensures ReadOnly(c, args) <==>
      forall i :: 0 <= i < |args| ==> ToLower(args[i]) in {"help", "-h", "--help", "--json", "--all", "--hidden"}
  {
    forall i | 0 <= i < |args|
      ensures OneOf(ToLower(args[i]), CATALOG_WORDS) <==>
        ToLower(args[i]) in {"help", "-h", "--help", "--json", "--all", "--hidden"}
    {
      CatalogWordsAre(ToLower(args[i]));
    }
  }

  // The provider gate: a query word alone, a report perhaps as JSON, or a check of one provider.
  lemma ProviderGateAccepts(args: seq<string>)
    ensures args == [] ==> ReadOnly(Provider, args)
    ensures args != [] ==>
      var word, more := ToLower(args[0]), args[1..];
      ReadOnly(Provider, args) <==>
        (|| (word in {"help", "-h", "--help", "--json"} && more == [])
         || (word in {"current", "status", "route", "candidates"}
             && (more == [] || (|more| == 1 && EqualFold(more[0], "--json"))))
         || (word == "check" && (|more| == 1 || (|more| == 2 && EqualFold(more[1], "--json")))))
  {
    if args != [] {
      WordsAre(ToLower(args[0]));
    }
  }

  // The commands that read settings are let through without an argument, except /plan, or with
  // one query word.
  lemma GateAccepts(args: seq<string>)
    ensures forall c :: c == Model || c == Effort ==>
      (ReadOnly(c, args) <==> args == [] || IsWordOf(args, {"status", "current", "help", "-h", "--help"}))
    ensures ReadOnly(PlanCommand, args) <==> IsWordOf(args, {"status", "current", "help", "-h", "--help"})
    ensures !ReadOnly(Unknown, args)
  {
    assert [] !in PLAN_OPTIONS;
    assert SETTING_OPTIONS[0] == [];
    assert PLAN_OPTIONS[0] == ["status"] && PLAN_OPTIONS[1] == ["current"] && PLAN_OPTIONS[2] == ["help"];
    assert PLAN_OPTIONS[3] == ["-h"] && PLAN_OPTIONS[4] == ["--help"];
    MatchesWord(args, PLAN_OPTIONS, {"status", "current", "help", "-h", "--help"});
    MatchesWord(args, SETTING_OPTIONS, {"status", "current", "help", "-h", "--help"});
  }

  // The queries are let through as JSON too.
  lemma QueryGateAccepts(c: Command, args: seq<string>)
    requires c == Version || c == Status
    ensures ReadOnly(c, args) <==> args == [] || IsWordOf(args, {"--json", "help", "-h", "--help"})
  {
    assert QUERY_OPTIONS[0] == [] && QUERY_OPTIONS[1] == ["--json"] && QUERY_OPTIONS[2] == ["help"];
    assert QUERY_OPTIONS[3] == ["-h"] && QUERY_OPTIONS[4] == ["--help"];
    MatchesWord(args, QUERY_OPTIONS, {"--json", "help", "-h", "--help"});
  }

  // ---- Soundness of the gate ---------------------------------------------------------------

  ghost predicate Harmless(env: Env, command: Command, args: seq<string>) {
    forall s :: Apply(env, command, args, s).state == s
  }

  predicate IsQueryWord(word: string) {
    OneOf(word, HELP_WORDS) || OneOf(word, STATUS_WORDS)
  }

  predicate AreAscii(words: seq<string>) {
    forall i :: 0 <= i < |words| ==> IsAscii(words[i])
  }

  // A dashed option holds no s.
  predicate NoDashedS(lit: string) {
    lit != "" && (lit[0] == '-' ==> 's' !in lit)
  }

  lemma Literals()
    ensures forall k :: 0 <= k < |PLAN_OPTIONS| ==>
      |PLAN_OPTIONS[k]| == 1 && IsAscii(PLAN_OPTIONS[k][0]) && NoSpace(PLAN_OPTIONS[k][0])
      && IsQueryWord(PLAN_OPTIONS[k][0]) && NoDashedS(PLAN_OPTIONS[k][0])
  {
    assert HELP_WORDS[0] == "help" && HELP_WORDS[1] == "-h" && HELP_WORDS[2] == "--help";
    assert STATUS_WORDS[0] == "current" && STATUS_WORDS[1] == "status";
  }

  // Every option of the setting commands is empty or one query word.
  lemma AcceptedSetting(args: seq<string>) returns (lit: string)
    requires MatchesAny(args, SETTING_OPTIONS) && args != []
    ensures |args| == 1 && EqualFold(args[0], lit) && IsAscii(lit) && NoSpace(lit) && IsQueryWord(lit)
    ensures NoDashedS(lit)
    ensures MatchesAny(args, PLAN_OPTIONS)
  {
    var k :| 0 <= k < |SETTING_OPTIONS| && MatchesOption(args, SETTING_OPTIONS[k]);
    Literals();
    assert k > 0 && SETTING_OPTIONS[k] == PLAN_OPTIONS[k - 1];
    assert MatchesOption(args, PLAN_OPTIONS[k - 1]);
    lit := PLAN_OPTIONS[k - 1][0];
  }

  lemma PlanIsSetting(args: seq<string>)
    requires MatchesAny(args, PLAN_OPTIONS)
    ensures MatchesAny(args, SETTING_OPTIONS) && args != []
  {
    var k :| 0 <= k < |PLAN_OPTIONS| && MatchesOption(args, PLAN_OPTIONS[k]);
    Literals();
    assert SETTING_OPTIONS[k + 1] == PLAN_OPTIONS[k];
  }

  // An argument the gate takes for a query word is read as one, unless it is spelled with the
  // long s; then it is read as no ASCII word at all.
  lemma AcceptedWord(arg: string, lit: string)
    requires EqualFold(arg, lit) && IsAscii(lit) && NoSpace(lit) && IsQueryWord(lit)
    ensures LONG_S !in arg ==> IsQueryWord(Word(arg))
    ensures LONG_S in arg ==> TrimSpace(arg) == arg != "" && 's' in lit && !IsAscii(Word(arg))
  {
  }

  lemma NoAsciiWord(word: string, words: seq<string>)
    requires !IsAscii(word) && AreAscii(words)
    ensures !OneOf(word, words)
  {
  }

  lemma FixedWordsAreAscii()
    ensures AreAscii(HELP_WORDS) && AreAscii(STATUS_WORDS) && AreAscii(["exit", "off"])
    ensures AreAscii(["default", "provider-default", "unset"])
  {
  }

  lemma EffortWordsAreAscii()
    ensures AreAscii(["auto", "unset"]) && AreAscii(["max"])
    ensures AreAscii(["none", "minimal", "low", "medium", "high", "xhigh"])
  {
  }

  // What a spelling with the long s does in the three setting handlers.
  lemma LongSpelling(arg: string, s: RuntimeState)
    requires TrimSpace(arg) == arg && !IsAscii(Word(arg)) && !("-" <= arg)
    ensures ApplyModel([arg], s).state == s.(model := arg)
    ensures ApplyPlan([arg], s).state == Steered(s, Entered).state
    ensures ApplyEffort([arg], s).state == s
  {
    FixedWordsAreAscii();
    EffortWordsAreAscii();
    NoAsciiWord(Word(arg), HELP_WORDS);
    NoAsciiWord(Word(arg), STATUS_WORDS);
    NoAsciiWord(Word(arg), ["default", "provider-default", "unset"]);
    NoAsciiWord(Word(arg), ["exit", "off"]);
    NoAsciiWord(Word(arg), ["auto", "unset"]);
    NoAsciiWord(Word(arg), ["max"]);
    assert ["max"][0] == "max";
    NoAsciiWord(Word(arg), ["none", "minimal", "low", "medium", "high", "xhigh"]);
  }

  lemma QuerySpelling(arg: string, s: RuntimeState)
    requires IsQueryWord(Word(arg))
    ensures ApplyModel([arg], s).state == s && ApplyPlan([arg], s).state == s && ApplyEffort([arg], s).state == s
  {
  }

  lemma LongIsUndashed(arg: string, lit: string)
    requires EqualFold(arg, lit) && 's' in lit && NoDashedS(lit)
    ensures !("-" <= arg)
  {
  }

  // Of the setting commands, /effort is always safe behind the gate; /model and /plan are unless
  // the argument is spelled with the long s.
  lemma SettingsAreHarmless(env: Env, args: seq<string>, s: RuntimeState)
    requires MatchesAny(args, SETTING_OPTIONS)
    ensures ApplyEffort(args, s).state == s
    ensures args == [] || LONG_S !in args[0] ==> ApplyModel(args, s).state == s
    ensures args != [] && LONG_S !in args[0] ==> ApplyPlan(args, s).state == s
  {
    if args != [] {
      var lit := AcceptedSetting(args);
      AcceptedWord(args[0], lit);
      assert args == [args[0]];
      if LONG_S !in args[0] {
        QuerySpelling(args[0], s);
      } else {
        LongIsUndashed(args[0], lit);
        LongSpelling(args[0], s);
      }
    }
  }

  lemma LongModelChangesState(env: Env, arg: string, s: RuntimeState)
    requires TrimSpace(arg) == arg && arg != s.model && !IsAscii(Word(arg)) && !("-" <= arg)
    ensures Apply(env, Model, [arg], s).state != s
  {
    LongSpelling(arg, s);
  }

  lemma LongPlanChangesState(env: Env, arg: string, s: RuntimeState)
    requires TrimSpace(arg) == arg && !IsAscii(Word(arg)) && !("-" <= arg)
    requires s.control.Some? && s.control.value.mode != Plan
    ensures Apply(env, PlanCommand, [arg], s).state != s
  {
    LongSpelling(arg, s);
  }

  lemma LongSettingsChangeState(env: Env, args: seq<string>)
    requires MatchesAny(args, PLAN_OPTIONS) && |args| == 1 && LONG_S in args[0]
    ensures !Harmless(env, Model, args) && !Harmless(env, PlanCommand, args)
  {
    PlanIsSetting(args);
    var lit := AcceptedSetting(args);
    AcceptedWord(args[0], lit);
    LongIsUndashed(args[0], lit);
    assert args == [args[0]];
    var s := RuntimeState("", "", "", "", 0, None, Some(Control(DefaultMode, false, DefaultMode)));
    LongModelChangesState(env, args[0], s);
    LongPlanChangesState(env, args[0], s);
  }

  lemma LowerIsTrimmed(arg: string)
    requires NoSpace(ToLower(arg))
    ensures Word(arg) == ToLower(arg)
  {
  }

  lemma ProviderWordsLackSpace(word: string)
    requires OneOf(word, HELP_WORDS) || word == "--json" || OneOf(word, STATUS_WORDS)
      || OneOf(word, ["route", "candidates"]) || word == "check"
    ensures NoSpace(word)
  {
  }

  // The provider gate lower-cases its word as the handler does, so it never admits a switch.
  lemma ProviderIsHarmless(env: Env, args: seq<string>, s: RuntimeState)
    requires ProviderReadOnly(args)
    ensures ApplyProvider(env, args, s).state == s
  {
    if args != [] {
      ProviderWordsLackSpace(ToLower(args[0]));
      LowerIsTrimmed(args[0]);
    }
  }

  // The one family of accepted arguments that changes state.
  predicate LongSpelled(command: Command, args: seq<string>) {
    (command == Model || command == PlanCommand) && |args| == 1 && LONG_S in args[0]
  }

  // The gate is sound exactly where its case folding agrees with the handlers': an accepted
  // command changes no state, except /model and /plan with an argument spelled with the long s,
  // which do.
  lemma GateIsSound(env: Env, command: Command, args: seq<string>)
    requires ReadOnly(command, args)
    ensures Harmless(env, command, args) <==> !LongSpelled(command, args)
  {
    if command == PlanCommand {
      PlanIsSetting(args);
    }
    if command == Model || command == Effort || command == PlanCommand {
      if args != [] {
        var lit := AcceptedSetting(args);
        if LONG_S in args[0] {
          LongSettingsChangeState(env, args);
        }
      }
      forall s {
        SettingsAreHarmless(env, args, s);
      }
    } else if command == Provider {
      forall s {
        ProviderIsHarmless(env, args, s);
      }
    }
  }

  // The failing family is not empty: "status" spelled with the long s passes the gate.
  lemma LongStatusEscapes(env: Env, arg: string)
    requires arg == [LONG_S] + "tatus"
    ensures ReadOnly(Model, [arg]) && !Harmless(env, Model, [arg])
    ensures ReadOnly(PlanCommand, [arg]) && !Harmless(env, PlanCommand, [arg])
  {
    var status := "status";
    assert forall i :: 0 <= i < |arg| ==> FoldsTo(arg[i], status[i]);
    assert MatchesOption([arg], PLAN_OPTIONS[0]);
    PlanIsSetting([arg]);
    assert arg[0] == LONG_S;
    LongSettingsChangeState(env, [arg]);
  }

  // In particular every accepted ASCII argument list is safe.
  lemma AsciiGateIsSound(env: Env, command: Command, args: seq<string>)
    requires ReadOnly(command, args) && forall i :: 0 <= i < |args| ==> IsAscii(args[i])
    ensures Harmless(env, command, args)
  {
    GateIsSound(env, command, args);
  }

  // ---- What commands may change ------------------------------------------------------------

  // Gated or not, each command changes at most its own settings.
  lemma CommandsChangeTheirOwn(env: Env, command: Command, args: seq<string>, s: RuntimeState)
    ensures var t := Apply(env, command, args, s).state;
      && (command != Model && command != Provider ==> t.model == s.model)
      && (command != Provider ==>
            t.provider == s.provider && t.compressionMax == s.compressionMax && t.manager == s.manager)
      && (command != Effort ==> t.effort == s.effort && t.effortMode == s.effortMode)
      && (command != PlanCommand ==> t.control == s.control)
  {
  }

  // Provider, model, compression budget and what the manager knows are replaced together, by those
  // of one selection that passes the check, or not at all.
  lemma ProviderSwitchIsWhole(env: Env, args: seq<string>, s: RuntimeState)
    ensures var t := Apply(env, Provider, args, s).state;
      t == s || (env.switchAvailable && exists name, window ::
                   (env.checks(name) && env.builds(name) == Some(Built(t.provider, t.model, window))
                    && t.compressionMax == env.budget(window)
                    && (t.manager.Some? ==> t.manager.value == Manager(t.provider, window))))
  {
  }

  const LEVELS: seq<string> := ["none", "minimal", "low", "medium", "high", "xhigh"]

  // What the configuration accepts: a known mode or none, a known level or none, in any case.
  predicate ValidEffort(s: RuntimeState) {
    && (Word(s.effortMode) == "" || Word(s.effortMode) == "manual" || Word(s.effortMode) == "auto")
    && (Word(s.effort) == "" || OneOf(Word(s.effort), LEVELS))
  }

  lemma LevelsAreWords()
    ensures forall i :: 0 <= i < |LEVELS| ==> NoSpace(LEVELS[i]) && ToLower(LEVELS[i]) == LEVELS[i]
  {
  }

  lemma WordOfWord(word: string)
    requires NoSpace(word) && ToLower(word) == word
    ensures Word(word) == word
  {
    TrimSpaceTrims(word);
  }

  lemma ModesAreWords()
    ensures Word("auto") == "auto" && Word("manual") == "manual" && Word("") == ""
  {
    WordOfWord("auto");
    WordOfWord("manual");
    WordOfWord("");
  }

  lemma EffortCommandIsValid(args: seq<string>, s: RuntimeState)
    ensures var t := ApplyEffort(args, s).state;
      || t == s
      || (t.effortMode == "auto" && t.effort == "" && ValidEffort(t))
      || (t.effortMode == "manual" && OneOf(t.effort, LEVELS) && ValidEffort(t))
  {
    LevelsAreWords();
    ModesAreWords();
    assert LEVELS[5] == "xhigh";
    var t := ApplyEffort(args, s).state;
    if t != s && t.effortMode == "manual" {
      WordOfWord(t.effort);
    }
  }

  // Every command keeps effort mode and level as the configuration would accept them; one that
  // changes them leaves either automatic mode without a level or manual mode with one.
  lemma EffortStaysValid(env: Env, command: Command, args: seq<string>, s: RuntimeState)
    requires ValidEffort(s)
    ensures var t := Apply(env, command, args, s).state;
      && ValidEffort(t)
      && ((t.effort, t.effortMode) == (s.effort, s.effortMode)
          || (t.effortMode == "auto" && t.effort == "") || (t.effortMode == "manual" && OneOf(t.effort, LEVELS)))
  {
    CommandsChangeTheirOwn(env, command, args, s);
    if command == Effort {
      EffortCommandIsValid(args, s);
    }
  }

  // ---- Behind the gate ---------------------------------------------------------------------

  function ApplyReadOnly(env: Env, command: Command, args: seq<string>, s: RuntimeState): Outcome {
    if ReadOnly(command, args) then Apply(env, command, args, s) else Outcome(s, NotReadOnly)
  }

  // The runtime_command tool.
  function ExecuteTool(env: Env, name: string, args: seq<string>, s: RuntimeState): Outcome {
    ApplyReadOnly(env, CommandOf(name), NormalizeArgs(args), s)
  }

  // The tool is harmless, in every state, exactly unless it passes on an argument spelled with
  // the long s to /model or /plan.
  lemma ToolIsHarmlessExactly(env: Env, name: string, args: seq<string>)
    ensures (forall s :: ExecuteTool(env, name, args, s).state == s) <==>
      !(ReadOnly(CommandOf(name), NormalizeArgs(args)) && LongSpelled(CommandOf(name), NormalizeArgs(args)))
  {
    var command, normal := CommandOf(name), NormalizeArgs(args);
    if ReadOnly(command, normal) {
      GateIsSound(env, command, normal);
      assert forall s :: ExecuteTool(env, name, args, s) == Apply(env, command, normal, s);
    }
  }

  // In particular it is for arguments without the long s.
  lemma ToolIsHarmless(env: Env, name: string, args: seq<string>, s: RuntimeState)
    requires forall i :: 0 <= i < |args| ==> LONG_S !in args[i]
    ensures ExecuteTool(env, name, args, s).state == s
  {
    NormalizeAddsNothing(args, LONG_S);
    ToolIsHarmlessExactly(env, name, args);
  }

  // ---- The runtime -------------------------------------------------------------------------

  lemma {:induction false} NamesGrow(args: seq<string>, n: nat)
    requires n <= |args|
    ensures |Names(args)| >= |Names(args[..n])|
    decreases |args|
  {
    if n < |args| {
      assert args[..|args| - 1][..n] == args[..n];
      NamesGrow(args[..|args| - 1], n);
    } else {
      assert args[..n] == args;
    }
  }

  class ExecutionRuntime {
    const env: Env
    const controller: PlanModeController?
    var provider: string
    var model: string
    var effort: string
    var effortMode: string
    var compressionMax: int
    var manager: Option<Manager>

    constructor (env: Env, controller: PlanModeController?, provider: string, model: string, manager: Option<Manager>)
      ensures this.env == env && this.controller == controller && this.manager == manager
      ensures this.provider == provider && this.model == model
      ensures effort == "" && effortMode == "" && compressionMax == 0
    {
      this.env, this.controller, this.provider, this.model := env, controller, provider, model;
      this.manager := manager;
      effort, effortMode, compressionMax := "", "", 0;
    }

    function CurrentState(): RuntimeState
      reads this, controller, if controller == null then {} else {controller.permission}
    {
      RuntimeState(provider, model, effort, effortMode, compressionMax, manager,
                   if controller == null then None else controller.CurrentControl())
    }

    method ApplyModelCommand(args: seq<string>) returns (reply: Reply)
      modifies this`model
      ensures Outcome(CurrentState(), reply) == ApplyModel(args, old(CurrentState()))
      ensures |args| != 1 || ToLower(TrimSpace(args[0])) in {"help", "-h", "--help", "current", "status"}
        ==> model == old(model) && reply != Changed
      ensures |args| == 1 && ToLower(TrimSpace(args[0])) in {"default", "provider-default", "unset"}
        ==> model == "" && reply == Changed
      ensures (|args| == 1 && ToLower(TrimSpace(args[0])) !in {"help", "-h", "--help", "current", "status",
                                                              "default", "provider-default", "unset"})
        ==> model == TrimSpace(args[0]) && reply == Changed
    {
      if |args| == 1 {
        WordsAre(ToLower(TrimSpace(args[0])));
      }
      if |args| == 0 {
        return Report;
      }
      if |args| > 1 {
        return Invalid;
      }
      var arg := TrimSpace(args[0]);
      if OneOf(ToLower(arg), HELP_WORDS) {
        return Usage;
      } else if OneOf(ToLower(arg), STATUS_WORDS) {
        return Report;
      } else if OneOf(ToLower(arg), ["default", "provider-default", "unset"]) {
        model := "";
      } else {
        model := arg;
      }
      reply := Changed;
    }

    method ApplyEffortCommand(args: seq<string>) returns (reply: Reply)
      modifies this`effort, this`effortMode
      ensures Outcome(CurrentState(), reply) == ApplyEffort(args, old(CurrentState()))
      ensures |args| == 1 && ToLower(TrimSpace(args[0])) in {"auto", "unset"}
        ==> effortMode == "auto" && effort == "" && reply == Changed
      ensures |args| == 1 && ToLower(TrimSpace(args[0])) == "max"
        ==> effortMode == "manual" && effort == "xhigh" && reply == Changed
      ensures |args| == 1 && ToLower(TrimSpace(args[0])) in {"none", "minimal", "low", "medium", "high", "xhigh"}
        ==> effortMode == "manual" && effort == ToLower(TrimSpace(args[0])) && reply == Changed
      ensures (|args| == 1 ==> ToLower(TrimSpace(args[0])) !in {"auto", "unset", "max", "none", "minimal", "low",
                                                               "medium", "high", "xhigh"})
        ==> effortMode == old(effortMode) && effort == old(effort) && reply != Changed
    {
      if |args| == 1 {
        WordsAre(ToLower(TrimSpace(args[0])));
      }
      if |args| == 0 {
        return Report;
      }
      var arg := ToLower(TrimSpace(args[0]));
      if |args| > 1 {
        return Invalid;
      }
      if OneOf(arg, HELP_WORDS) {
        return Usage;
      } else if OneOf(arg, STATUS_WORDS) {
        return Report;
      } else if OneOf(arg, ["auto", "unset"]) {
        effortMode, effort := "auto", "";
      } else if arg == "max" {
        effortMode, effort := "manual", "xhigh";
      } else if OneOf(arg, ["none", "minimal", "low", "medium", "high", "xhigh"]) {
        effortMode, effort := "manual", arg;
      } else {
        return Invalid;
      }
      reply := Changed;
    }

    method ApplyPlanCommand(args: seq<string>) returns (reply: Reply)
      modifies controller, if controller == null then {} else {controller.permission}
      ensures Outcome(CurrentState(), reply) == ApplyPlan(args, old(CurrentState()))
      ensures |args| == 1 && ToLower(TrimSpace(args[0])) in {"exit", "off"}
        ==> CurrentState().control == Mapped(old(CurrentState()).control, Exited)
      ensures |args| == 1 && ToLower(TrimSpace(args[0])) in {"help", "-h", "--help", "current", "status"}
        ==> CurrentState() == old(CurrentState())
      ensures (|args| == 1 ==> ToLower(TrimSpace(args[0])) !in {"exit", "off", "help", "-h", "--help", "current",
                                                               "status"})
        ==> (CurrentState().control
             == if args != [] && "-" <= TrimSpace(args[0]) then old(CurrentState()).control
                else Mapped(old(CurrentState()).control, Entered))
    {
      if |args| == 1 {
        WordsAre(ToLower(TrimSpace(args[0])));
        var word := Word(args[0]);
        if OneOf(word, HELP_WORDS) {
          return Usage;
        } else if OneOf(word, STATUS_WORDS) {
          return Report;
        } else if OneOf(word, ["exit", "off"]) {
          if controller == null {
            return Unavailable;
          }
          var _, _, _ := controller.Exit();
          return if controller.permission == null then Unavailable else Changed;
        }
      }
      if |args| > 0 && "-" <= TrimSpace(args[0]) {
        return Invalid;
      }
      if controller == null {
        return Unavailable;
      }
      var _, _ := controller.Enter();
      return if controller.permission == null then Unavailable else Changed;
    }

    method SwitchProviderForSession(name: string) returns (reply: Reply)
      modifies this`provider, this`model, this`compressionMax, this`manager
      ensures Outcome(CurrentState(), reply) == SwitchProvider(env, name, old(CurrentState()))
      ensures reply == Changed <==> env.checks(name) && env.switchAvailable && env.builds(name).Some?
      ensures reply == Changed ==>
        var built := env.builds(name).value;
        && provider == built.provider && model == built.model && compressionMax == env.budget(built.contextWindow)
        && (manager.Some? <==> old(manager).Some?)
        && (manager.Some? ==> manager.value.provider == built.provider
                              && manager.value.contextWindow == built.contextWindow)
      ensures reply != Changed ==> CurrentState() == old(CurrentState())
    {
      if !env.checks(name) {
        return Failed;
      }
      if !env.switchAvailable {
        return Failed;
      }
      var built := env.builds(name);
      if built.None? {
        return Failed;
      }
      provider := built.value.provider;
      model := built.value.model;
      compressionMax := env.budget(built.value.contextWindow);
      if manager.Some? {
        manager := Some(Manager(provider, built.value.contextWindow));
      }
      reply := Changed;
    }

    // The provider named among the arguments, and whether they are valid.
    method ParseProviderName(args: seq<string>) returns (name: Option<string>)
      ensures name == NamedProvider(args)
      ensures forall n :: name == Some(n) <==> 1 <= |args| <= 2 && exists i :: OnlyName(args, i, n)
    {
      forall n ensures NamedProvider(args) == Some(n) <==> 1 <= |args| <= 2 && exists i :: OnlyName(args, i, n) {
        NamedExactly(args, n);
      }
      if |args| == 0 || |args| > 2 {
        return None;
      }
      var providerName := "";
      for i := 0 to |args|
        invariant Names(args[..i]) == if providerName == "" then [] else [providerName]
      {
        assert args[..i + 1][..i] == args[..i];
        var arg := TrimSpace(args[i]);
        if arg == "" {
          continue;
        }
        if EqualFold(arg, "--json") {
          continue;
        }
        if providerName != "" {
          NamesGrow(args, i + 1);
          return None;
        }
        providerName := arg;
      }
      assert args[..|args|] == args;
      return if providerName == "" then None else Some(providerName);
    }

    method ApplyProviderCommand(args: seq<string>) returns (reply: Reply)
      modifies this`provider, this`model, this`compressionMax, this`manager
      ensures Outcome(CurrentState(), reply) == ApplyProvider(env, args, old(CurrentState()))
      ensures reply == Changed <==>
        && args != [] && ToLower(TrimSpace(args[0])) in {"use", "switch"} && NamedProvider(args[1..]).Some?
        && var name := NamedProvider(args[1..]).value;
           env.checks(name) && env.switchAvailable && env.builds(name).Some?
      ensures reply == Changed ==>
        CurrentState() == SwitchProvider(env, NamedProvider(args[1..]).value, old(CurrentState())).state
      ensures reply != Changed ==> CurrentState() == old(CurrentState())
      ensures args != [] && ToLower(TrimSpace(args[0])) == "check" && NamedProvider(args[1..]).Some? ==>
        reply == if env.checks(NamedProvider(args[1..]).value) then Report else Failed
    {
      if args != [] {
        WordsAre(ToLower(TrimSpace(args[0])));
      }
      if |args| == 0 {
        return Report;
      }
      var word := ToLower(TrimSpace(args[0]));
      if OneOf(word, HELP_WORDS) {
        return if |args| > 1 then Invalid else Usage;
      } else if word == "--json" {
        return if |args| > 1 then Invalid else Report;
      } else if OneOf(word, STATUS_WORDS) || OneOf(word, ["route", "candidates"]) {
        return ReportOrInvalid(args[1..]);
      }
      var name := ParseProviderName(args[1..]);
      if word == "check" {
        return if name.None? then Invalid else if env.checks(name.value) then Report else Failed;
      } else if OneOf(word, ["use", "switch"]) {
        if name.None? {
          return Invalid;
        }
        reply := SwitchProviderForSession(name.value);
      } else {
        reply := Unavailable;
      }
    }

    // The dispatch behind the gate. What the gate accepts leaves the runtime as it was, unless
    // an argument of /model or /plan is spelled with the long s.
    method ApplyReadOnlyRuntimeCommand(command: Command, args: seq<string>) returns (reply: Reply)
      modifies this, controller, if controller == null then {} else {controller.permission}
      ensures Outcome(CurrentState(), reply) == ApplyReadOnly(env, command, args, old(CurrentState()))
      ensures (forall i :: 0 <= i < |args| ==> LONG_S !in args[i]) ==> CurrentState() == old(CurrentState())
    {
      if !ReadOnly(command, args) {
        return NotReadOnly;
      }
      GateIsSound(env, command, args);
      match command {
        case Version | Status => reply := ApplyQuery(args);
        case Commands | Help | Skills => reply := ApplyCatalog(args);
        case Provider => reply := ApplyProviderCommand(args);
        case Model => reply := ApplyModelCommand(args);
        case Effort => reply := ApplyEffortCommand(args);
        case PlanCommand => reply := ApplyPlanCommand(args);
        case Unknown => reply := Unsupported;
      }
    }
  }

  // ---- What a tool call does ---------------------------------------------------------------

  // One tool call of a session, with the command line it carries if it is a runtime command.
  datatype Step = Step(request: Request, name: string, args: seq<string>)

  // The engine's lists, and the runtime whose control holds the permission mode.
  datatype System = System(allowList: seq<string>, denyList: seq<string>, hasPrompter: bool, runtime: RuntimeState)

  function PolicyOf(sys: System): Policy
    requires sys.runtime.control.Some?
  {
    Policy(sys.allowList, sys.denyList, sys.hasPrompter, sys.runtime.control.value.mode)
  }

  // What an approved call does to the runtime: only three tools reach it.
  function Performed(env: Env, s: RuntimeState, step: Step): RuntimeState {
    if step.request.tool == "enter_plan_mode" then Steered(s, Entered).state
    else if step.request.tool == "exit_plan_mode" then Steered(s, Exited).state
    else if step.request.tool == "runtime_command" then ExecuteTool(env, step.name, step.args, s).state
    else s
  }

  predicate InPlanMode(s: RuntimeState) {
    s.control.Some? && s.control.value.mode == Plan && s.control.value.active
  }

  // The one way out of plan mode's confinement: a model named by a spelling of a query word with
  // the long s.
  predicate Leaks(step: Step) {
    var args := NormalizeArgs(step.args);
    && step.request.tool == "runtime_command" && CommandOf(step.name) == Model
    && ReadOnly(Model, args) && LongSpelled(Model, args)
  }

  lemma PlanModeTool(env: Env, name: string, args: seq<string>, s: RuntimeState)
    requires InPlanMode(s)
    ensures var command, normal := CommandOf(name), NormalizeArgs(args);
      ExecuteTool(env, name, args, s).state
      == if command == Model && ReadOnly(Model, normal) && LongSpelled(Model, normal) then s.(model := normal[0]) else s
  {
    var command, normal := CommandOf(name), NormalizeArgs(args);
    if ReadOnly(command, normal) {
      GateIsSound(env, command, normal);
      if LongSpelled(command, normal) {
        if command == PlanCommand {
          PlanIsSetting(normal);
        }
        var lit := AcceptedSetting(normal);
        AcceptedWord(normal[0], lit);
        LongIsUndashed(normal[0], lit);
        LongSpelling(normal[0], s);
        assert normal == [normal[0]];
      }
    }
  }

  // What a call does to the runtime in plan mode, exactly: nothing, unless it leaks, and then it
  // sets the model to that spelling.
  lemma PlanModeStep(env: Env, s: RuntimeState, step: Step)
    requires InPlanMode(s) && step.request.tool != "exit_plan_mode"
    ensures Performed(env, s, step) == if Leaks(step) then s.(model := NormalizeArgs(step.args)[0]) else s
  {
    PlanModeTool(env, step.name, step.args, s);
  }
}
