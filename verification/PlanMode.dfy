// The permission engine and the plan-mode controller (internal/agent/permission.go and
// internal/agent/plan_mode_tools.go).
module PlanMode {
  import opened Wrappers

  datatype Mode = DefaultMode | AcceptEdits | Plan | Bypass

  // What a check, or the prompter, answers.
  datatype Verdict = Approved | Refused | PromptError

  // ---- Deciding one call -------------------------------------------------------------------

  datatype Policy = Policy(allowList: seq<string>, denyList: seq<string>, hasPrompter: bool, mode: Mode)

  const READ_ONLY_TOOLS: set<string> := {
    "read_file", "glob", "grep", "web_fetch", "web_search", "wiki_search", "wiki_read",
    "conversation_search", "cross_project_search", "cross_project_conversation_search",
    "tool_search", "code_symbols", "command_catalog", "runtime_command", "todo_write", "task_list",
    "task_get", "task_output", "task_monitor", "ask_user_question", "user_question_list",
    "user_question_wait", "schedule_list", "worktree_list", "agentic_actor_graph",
    "agentic_task_evidence", "agentic_delegate_list", "agentic_message_list",
    "enter_plan_mode", "exit_plan_mode"
  }

  predicate IsReadOnly(tool: string) {
    tool in READ_ONLY_TOOLS
  }

  predicate IsEditTool(tool: string) {
    tool == "write_file" || tool == "edit_file" || tool == "wiki_write"
  }

  // The tools that run commands or edit files are not among the read-only ones.
  lemma ReadOnlyToolsEditNothing()
    ensures forall tool :: IsReadOnly(tool) ==> !IsEditTool(tool) && tool != "bash"
  {
  }

  // A tool call as the engine sees it: whether it is a bash call judged dangerous, and what the
  // prompter would answer.
  datatype Request = Request(tool: string, dangerous: bool, answer: Verdict)

  predicate IsDangerousBash(r: Request) {
    r.tool == "bash" && r.dangerous
  }

  function Decide(p: Policy, r: Request): Verdict {
    if r.tool in p.denyList then Refused
    else if p.mode == Bypass then Approved
    else if IsDangerousBash(r) then if p.hasPrompter then r.answer else Refused
    else if r.tool in p.allowList then Approved
    else if p.mode == Plan then if IsReadOnly(r.tool) then Approved else Refused
    else if p.mode == AcceptEdits && (IsReadOnly(r.tool) || IsEditTool(r.tool)) then Approved
    else if !p.hasPrompter then Approved
    else r.answer
  }

  method Listed(names: seq<string>, tool: string) returns (found: bool)
    ensures found <==> tool in names
  {
    for i := 0 to |names|
      invariant tool !in names[..i]
    {
      if names[i] == tool {
        return true;
      }
    }
    found := false;
  }

  class Permission {
    var allowList: seq<string>
    var denyList: seq<string>
    var hasPrompter: bool
    var mode: Mode

    constructor (allowList: seq<string>, denyList: seq<string>, hasPrompter: bool, mode: Mode)
      ensures CurrentPolicy() == Policy(allowList, denyList, hasPrompter, mode)
    {
      this.allowList, this.denyList, this.hasPrompter, this.mode := allowList, denyList, hasPrompter, mode;
    }

    function CurrentPolicy(): Policy
      reads this
    {
      Policy(allowList, denyList, hasPrompter, mode)
    }

    method SetMode(mode: Mode)
      modifies this`mode
      ensures CurrentPolicy() == old(CurrentPolicy()).(mode := mode)
    {
      this.mode := mode;
    }

    // The prompter is asked about a dangerous bash command wherever the mode asks at all, and
    // about any other tool exactly in the default and accept-edits modes, when it is on neither
    // list and accept-edits does not let it through.
    method Check(r: Request) returns (verdict: Verdict)
      ensures verdict == Decide(CurrentPolicy(), r)
      ensures r.tool in denyList ==> verdict == Refused
      ensures mode == Bypass && r.tool !in denyList ==> verdict == Approved
      ensures (mode != Bypass && r.tool !in denyList && r.tool == "bash" && r.dangerous)
        ==> verdict == if hasPrompter then r.answer else Refused
      ensures (r.tool in allowList && r.tool !in denyList && !(r.tool == "bash" && r.dangerous))
        ==> verdict == Approved
      ensures (mode == Plan && r.tool !in denyList + allowList && !(r.tool == "bash" && r.dangerous))
        ==> verdict == if IsReadOnly(r.tool) then Approved else Refused
      ensures (mode == DefaultMode && hasPrompter && r.tool !in denyList + allowList)
        ==> verdict == r.answer
      ensures (mode == AcceptEdits && r.tool !in denyList
               && (IsReadOnly(r.tool) || r.tool == "write_file" || r.tool == "edit_file" || r.tool == "wiki_write"))
        ==> verdict == Approved
      ensures (mode == AcceptEdits && hasPrompter && r.tool !in denyList + allowList && !IsReadOnly(r.tool)
               && r.tool != "write_file" && r.tool != "edit_file" && r.tool != "wiki_write")
        ==> verdict == r.answer
      ensures ((mode == DefaultMode || mode == AcceptEdits) && !hasPrompter && r.tool !in denyList
               && !(r.tool == "bash" && r.dangerous))
        ==> verdict == Approved
    {
      ReadOnlyToolsEditNothing();
      var denied := Listed(denyList, r.tool);
      if denied {
        return Refused;
      }
      if mode == Bypass {
        return Approved;
      }
      if IsDangerousBash(r) {
        return if hasPrompter then r.answer else Refused;
      }
      var allowed := Listed(allowList, r.tool);
      if allowed {
        return Approved;
      }
      if mode == Plan {
        return if IsReadOnly(r.tool) then Approved else Refused;
      }
      if mode == AcceptEdits && (IsReadOnly(r.tool) || IsEditTool(r.tool)) {
        return Approved;
      }
      if !hasPrompter {
        return Approved;
      }
      verdict := r.answer;
    }
  }

  // ---- The controller ----------------------------------------------------------------------

  // The permission mode and the two fields of the controller that drives it.
  datatype Control = Control(mode: Mode, active: bool, previous: Mode)

  function Entered(c: Control): Control {
    Control(Plan, true, if c.active then c.previous else c.mode)
  }

  function Exited(c: Control): Control {
    if c.active then c.(mode := c.previous, active := false) else c
  }

  function Mapped(c: Option<Control>, f: Control -> Control): Option<Control> {
    if c.Some? then Some(f(c.value)) else None
  }

  class PlanModeController {
    const permission: Permission?
    var active: bool
    var previous: Mode

    constructor (permission: Permission?)
      ensures this.permission == permission && !active
    {
      this.permission, active, previous := permission, false, DefaultMode;
    }

    // None when there is no permission to drive.
    function CurrentControl(): Option<Control>
      reads this, permission
    {
      if permission == null then None else Some(Control(permission.mode, active, previous))
    }

    method Enter() returns (before: Mode, current: Mode)
      modifies this, permission
      ensures CurrentControl() == Mapped(old(CurrentControl()), Entered)
      ensures permission != null ==>
        permission.CurrentPolicy() == old(permission.CurrentPolicy()).(mode := Plan)
      ensures permission == null ==> before == current == DefaultMode && unchanged(this)
      ensures permission != null ==> before == previous && current == Plan
    {
      if permission == null {
        return DefaultMode, DefaultMode;
      }
      if !active {
        previous := permission.mode;
        active := true;
      }
      permission.SetMode(Plan);
      return previous, Plan;
    }

    method Exit() returns (before: Mode, current: Mode, restored: bool)
      modifies this, permission
      ensures CurrentControl() == Mapped(old(CurrentControl()), Exited)
      ensures permission != null ==>
        permission.CurrentPolicy() == old(permission.CurrentPolicy()).(mode := current)
      ensures permission == null ==> before == current == DefaultMode && !restored && unchanged(this)
      ensures permission != null ==> (restored <==> old(active)) && before == current == permission.mode
    {
      if permission == null {
        return DefaultMode, DefaultMode, false;
      }
      if !active {
        return permission.mode, permission.mode, false;
      }
      before := previous;
      permission.SetMode(before);
      active := false;
      return before, before, true;
    }
  }

  // ---- Runs --------------------------------------------------------------------------------

  // What can happen to a permission engine and its controller: nothing else sets the mode.
  datatype Event = EnterPlan | ExitPlan | Call(request: Request)

  datatype Session = Session(policy: Policy, active: bool, previous: Mode)

  function ControlOf(s: Session): Control {
    Control(s.policy.mode, s.active, s.previous)
  }

  function WithControl(s: Session, c: Control): Session {
    Session(s.policy.(mode := c.mode), c.active, c.previous)
  }

  function After(s: Session, e: Event): Session {
    match e
    case EnterPlan => WithControl(s, Entered(ControlOf(s)))
    case ExitPlan => WithControl(s, Exited(ControlOf(s)))
    case Call(_) => s
  }

  function AfterAll(s: Session, events: seq<Event>): Session {
    if events == [] then s else After(AfterAll(s, events[..|events| - 1]), events[|events| - 1])
  }

  // The verdict on the call at position i of a run.
  function VerdictAt(s: Session, events: seq<Event>, i: nat): Verdict
    requires i < |events| && events[i].Call?
  {
    Decide(AfterAll(s, events[..i]).policy, events[i].request)
  }

  predicate Exitless(events: seq<Event>) {
    forall i :: 0 <= i < |events| ==> !events[i].ExitPlan?
  }

  lemma {:induction false} RunConcat(s: Session, a: seq<Event>, b: seq<Event>)
    ensures AfterAll(s, a + b) == AfterAll(AfterAll(s, a), b)
    decreases |b|
  {
    if b == [] {
      assert a + b == a;
    } else {
      assert (a + b)[..|a + b| - 1] == a + b[..|b| - 1];
      RunConcat(s, a, b[..|b| - 1]);
    }
  }

  // Lists and prompter never change.
  lemma {:induction false} PolicyStays(s: Session, events: seq<Event>)
    ensures AfterAll(s, events).policy == s.policy.(mode := AfterAll(s, events).policy.mode)
  {
    if events != [] {
      PolicyStays(s, events[..|events| - 1]);
    }
  }

  // Until the first exit, plan mode stays on and remembers the same mode to restore.
  lemma {:induction false} PlanStays(s: Session, events: seq<Event>)
    requires s.policy.mode == Plan && s.active && Exitless(events)
    ensures AfterAll(s, events) == s
  {
    if events != [] {
      PlanStays(s, events[..|events| - 1]);
    }
  }

  // The calls plan mode lets through.
  predicate PlanAllows(p: Policy, r: Request) {
    && r.tool !in p.denyList
    && if IsDangerousBash(r) then p.hasPrompter && r.answer == Approved
       else r.tool in p.allowList || IsReadOnly(r.tool)
  }

  // Confinement: from an Enter until the first Exit a call is approved exactly when it is not
  // deny-listed and is a read-only or allow-listed tool, or a dangerous bash call the prompter
  // accepted, and the mode stays plan. With an empty allow list that leaves read-only tools.
  lemma PlanModeConfines(s: Session, events: seq<Event>, i: nat)
    requires i < |events| && events[i].Call? && Exitless(events)
    ensures var entered := After(s, EnterPlan);
      && AfterAll(entered, events[..i]).policy.mode == Plan
      && (VerdictAt(entered, events, i) == Approved <==> PlanAllows(s.policy, events[i].request))
      && (s.policy.allowList == [] && VerdictAt(entered, events, i) == Approved ==>
            (IsReadOnly(events[i].request.tool)
             || (IsDangerousBash(events[i].request) && events[i].request.answer == Approved)))
  {
    PlanStays(After(s, EnterPlan), events[..i]);
  }

  // Whatever a stricter mode approves, the more permissive ones approve too: plan and default
  // lie below accept-edits, and that below bypass, which only the deny list limits.
  lemma ModesAreOrdered(p: Policy, r: Request)
    ensures Decide(p.(mode := Plan), r) == Approved ==> Decide(p.(mode := AcceptEdits), r) == Approved
    ensures Decide(p.(mode := DefaultMode), r) == Approved ==> Decide(p.(mode := AcceptEdits), r) == Approved
    ensures Decide(p.(mode := AcceptEdits), r) == Approved ==> Decide(p.(mode := Bypass), r) == Approved
    ensures Decide(p.(mode := Bypass), r) == Approved <==> r.tool !in p.denyList
  {
  }

  // When the prompter is asked, exactly; wherever it is not, its answer changes nothing.
  lemma AskedExactly(p: Policy, r: Request)
    ensures var asked := (&& p.hasPrompter && r.tool !in p.denyList && p.mode != Bypass
                          && (IsDangerousBash(r)
                              || (r.tool !in p.allowList && p.mode != Plan
                                  && !(p.mode == AcceptEdits && (IsReadOnly(r.tool) || IsEditTool(r.tool))))));
      && (asked <==> forall a :: Decide(p, r.(answer := a)) == a)
      && (!asked ==> forall a :: Decide(p, r.(answer := a)) == Decide(p, r) != PromptError)
  {
    if forall a :: Decide(p, r.(answer := a)) == a {
      assert Decide(p, r.(answer := Approved)) == Approved && Decide(p, r.(answer := Refused)) == Refused;
    }
  }

  lemma {:induction false} OutsideNothingChanges(s: Session, events: seq<Event>)
    requires !s.active && forall i :: 0 <= i < |events| ==> !events[i].EnterPlan?
    ensures AfterAll(s, events) == s
  {
    if events != [] {
      OutsideNothingChanges(s, events[..|events| - 1]);
    }
  }

  // Any number of enters, then one exit, restores the session before the first enter, up to
  // the mode the controller remembers; further exits change nothing.
  lemma ExitRestores(s: Session, events: seq<Event>, more: seq<Event>)
    requires !s.active && Exitless(events)
    requires forall i :: 0 <= i < |more| ==> !more[i].EnterPlan?
    ensures var out := AfterAll(s, [EnterPlan] + events + [ExitPlan] + more);
      out == s.(previous := s.policy.mode)
  {
    var entered := After(s, EnterPlan);
    RunConcat(s, [EnterPlan] + events + [ExitPlan], more);
    RunConcat(s, [EnterPlan] + events, [ExitPlan]);
    RunConcat(s, [EnterPlan], events);
    assert [EnterPlan][..0] == [] && AfterAll(s, [EnterPlan]) == entered;
    PlanStays(entered, events);
    var exited := After(entered, ExitPlan);
    assert [ExitPlan][..0] == [] && AfterAll(entered, [ExitPlan]) == exited;
    OutsideNothingChanges(exited, more);
  }

  // A deny-listed tool is never approved, whatever happened before.
  lemma DeniedStaysDenied(s: Session, events: seq<Event>, i: nat)
    requires i < |events| && events[i].Call? && events[i].request.tool in s.policy.denyList
    ensures VerdictAt(s, events, i) == Refused
  {
    PolicyStays(s, events[..i]);
  }

  // An active controller holds the engine in plan mode and remembers the mode before the first
  // enter; an inactive one has left that mode as it was. Unless the engine was configured in plan
  // mode from the start, active and plan mode go together.
  lemma {:induction false} ActiveMeansPlan(s: Session, events: seq<Event>)
    requires !s.active
    ensures var t := AfterAll(s, events);
      && (if t.active then t.policy.mode == Plan && t.previous == s.policy.mode else t.policy.mode == s.policy.mode)
      && (s.policy.mode != Plan ==> (t.active <==> t.policy.mode == Plan))
  {
    if events != [] {
      ActiveMeansPlan(s, events[..|events| - 1]);
    }
  }

  // ---- Where the documented rules hold -----------------------------------------------------

  // "Allow list: always allow" holds for a tool that is not denied exactly in bypass mode, for
  // calls that are not dangerous bash, and for those the prompter accepts.
  lemma AllowListRule(p: Policy, r: Request)
    requires r.tool in p.allowList && r.tool !in p.denyList
    ensures Decide(p, r) == Approved <==>
      p.mode == Bypass || !IsDangerousBash(r) || (p.hasPrompter && r.answer == Approved)
  {
  }

  // It fails for an allow-listed dangerous command without a prompter.
  lemma AllowListedCanBeRefused()
    ensures Decide(Policy(["bash"], [], false, DefaultMode), Request("bash", true, Approved)) == Refused
  {
    assert "bash" in ["bash"];
  }

  // "The default mode asks for tools that are not read-only" suggests that read-only ones pass.
  // They do exactly when they are allow-listed, when nobody can be asked, or when the prompter
  // accepts them.
  lemma DefaultModeRule(p: Policy, r: Request)
    requires p.mode == DefaultMode && IsReadOnly(r.tool) && r.tool !in p.denyList
    ensures Decide(p, r) == Approved <==> r.tool in p.allowList || !p.hasPrompter || r.answer == Approved
  {
    ReadOnlyToolsEditNothing();
  }

  // It fails for a read-only tool the prompter refuses.
  lemma ReadOnlyCanBeRefused()
    ensures IsReadOnly("glob")
    ensures Decide(Policy([], [], true, DefaultMode), Request("glob", false, Refused)) == Refused
  {
  }
}
