/**
 * bot.py: the admin filter, the history middleware, skill loading into the
 * dispatcher, and the argument handling of `/plan`, `/new_skill` and
 * `/review`.
 *
 * Environment variables, the message store, the file system and Python's
 * module importer are parameters: `ADMIN_ID` is an `Option<string>`, the
 * stored history a `seq<Message>`, the listing of the skills directory a
 * `seq<string>`, and importing, reloading and calling `setup()` on one
 * module is a `ModuleOracle`.
 */
module Bot {
  import opened Wrappers
  import opened PyStr
  import opened Agents

  // ---------------------------------------------------------------------
  // AdminFilter

  /** `AdminFilter`: the sender's id, written as Python's `str(int)`, equals `ADMIN_ID`. */
  predicate IsAdmin(userId: int, adminId: Option<string>) {
    adminId == Some(IntToDecimal(userId))
  }

  /**
   * A user passes the filter exactly when `ADMIN_ID` is set, reads as that
   * user's id, and is written the way `str` writes it (no sign `+`, no
   * leading zeros, no spaces). An unset `ADMIN_ID` admits nobody.
   */
  lemma AdminMeansCanonicalId(userId: int, adminId: Option<string>)
    ensures IsAdmin(userId, adminId) <==>
            adminId.Some? && ParseInt(adminId.value) == Some(userId) &&
            IntToDecimal(userId) == adminId.value
  {
    ParseIntRoundTrip(userId);
  }

  /** At most one user id passes the filter. */
  lemma AdminUnique(u: int, v: int, adminId: Option<string>)
    requires IsAdmin(u, adminId) && IsAdmin(v, adminId)
    ensures u == v
  {
    IntToDecimalInjective(u, v);
  }

  // ---------------------------------------------------------------------
  // HistoryMiddleware

  /** What the middleware does with one incoming message, in order. */
  datatype MiddlewareStep = SaveMessage(userId: int, role: string, content: string) | CallHandler

  /**
   * `HistoryMiddleware.__call__`: a message with non-empty text that does
   * not start with '/' is stored as a user message first; the handler is
   * always called, last. `text` is `None` for messages without text.
   */
  function HistoryMiddleware(userId: int, text: Option<string>): (steps: seq<MiddlewareStep>)
    ensures 1 <= |steps| <= 2 && steps[|steps| - 1] == CallHandler
    ensures |steps| == 2 <==> text.Some? && |text.value| > 0 && text.value[0] != '/'
    ensures |steps| == 2 ==> steps[0] == SaveMessage(userId, "user", text.value)
  {
    if text.Some? && text.value != "" && !StartsWith(text.value, "/") then
      [SaveMessage(userId, "user", text.value), CallHandler]
    else
      [CallHandler]
  }

  // ---------------------------------------------------------------------
  // /plan

  const PlanCommandText: string := "/plan"
  const PlanUsage: string := "Напишите задачу после /plan"

  /**
   * The task of `cmd_plan`: the message text with every "/plan" removed,
   * then stripped. It never starts or ends with whitespace and is never
   * longer than the text.
   */
  function PlanTask(text: string): (task: string)
    ensures |task| <= |text|
    ensures task == [] || (!IsSpace(task[0]) && !IsSpace(task[|task| - 1]))
    ensures task == [] <==> AllSpace(RemoveAll(text, PlanCommandText))
  {
    Strip(RemoveAll(text, PlanCommandText))
  }

  /**
   * "/plan" is cut out of the text, and what surrounds it is joined and
   * stripped: for a text with a single "/plan", the task is the text
   * without it.
   */
  lemma PlanTaskOfCommand(before: string, after: string)
    requires !Contains(before + "/pla", PlanCommandText) && !Contains(after, PlanCommandText)
    ensures PlanTask(before + PlanCommandText + after) == Strip(before + after)
  {
    assert PlanCommandText[..|PlanCommandText| - 1] == "/pla";
    RemoveAllFirstOccurrence(before, PlanCommandText, after);
  }

  /** What `cmd_plan` does: the usage reply, or a planner call followed by a verifier call. */
  datatype PlanOutcome = PlanUsageReply | PlanAnswered(plan: Exchange, check: Exchange)

  function PlanCommand(endpoint: Endpoint, text: string, history: seq<Message>): PlanOutcome {
    var task := PlanTask(text);
    if task == [] then PlanUsageReply
    else
      var plan := PlannerProcess(endpoint, task, history);
      PlanAnswered(plan, VerifierProcess(endpoint, plan.reply))
  }

  /** Every request `cmd_plan` sends, in order. */
  function PlanRequests(r: PlanOutcome): seq<Request> {
    match r
    case PlanUsageReply => []
    case PlanAnswered(plan, check) => plan.requests + check.requests
  }

  /** The reply `cmd_plan` sends back to the chat. */
  function PlanReplyText(r: PlanOutcome): string {
    match r
    case PlanUsageReply => PlanUsage
    case PlanAnswered(plan, check) =>
      "📋 **План:**\n" + plan.reply + "\n\n✅ **Проверка:**\n" + check.reply
  }

  /**
   * The assistant message `cmd_plan` stores afterwards, if any. `delivered`
   * says whether Telegram accepted the Markdown reply: when it refuses it
   * (a plan with unbalanced `*` or `_`, say) the send raises and the
   * handler ends before the plan is stored.
   */
  function PlanSaved(r: PlanOutcome, delivered: bool): Option<Message> {
    match r
    case PlanUsageReply => None
    case PlanAnswered(plan, _) => if delivered then Some(Message("assistant", plan.reply)) else None
  }

  /**
   * `cmd_plan`: an empty task gets the usage reply and reaches neither
   * agent. Otherwise two to four requests go out: first one or two for the
   * planner, each carrying the history followed by the task, then one or two
   * for the verifier, each carrying the plan text alone; the plan is stored
   * as an assistant message once the reply is delivered, and only then.
   */
  lemma PlanCommandRequests(endpoint: Endpoint, text: string, history: seq<Message>, delivered: bool)
    ensures var r := PlanCommand(endpoint, text, history);
      PlanTask(text) == [] <==> PlanRequests(r) == [] && PlanReplyText(r) == PlanUsage && PlanSaved(r, delivered) == None
    ensures var r := PlanCommand(endpoint, text, history);
      var reqs := PlanRequests(r);
      PlanTask(text) != [] ==>
        r.PlanAnswered? && 2 <= |reqs| <= 4 &&
        reqs[0] == Request(PlannerModel, history + [Message("user", PlanTask(text))]) &&
        (forall i :: 0 <= i < |r.plan.requests| ==>
           reqs[i].messages == history + [Message("user", PlanTask(text))]) &&
        reqs[|r.plan.requests|] == Request(VerifierModel, [Message("user", r.plan.reply)]) &&
        (forall i :: |r.plan.requests| <= i < |reqs| ==>
           reqs[i].messages == [Message("user", r.plan.reply)]) &&
        PlanSaved(r, delivered) == (if delivered then Some(Message("assistant", r.plan.reply)) else None)
  {
    var r := PlanCommand(endpoint, text, history);
    var task := PlanTask(text);
    if task != [] {
      var msgs := history + [Message("user", task)];
      var reqs := PlanRequests(r);
      assert forall i :: 0 <= i < |r.plan.requests| ==> reqs[i] == r.plan.requests[i];
      assert forall i :: 0 <= i < |r.plan.requests| ==> r.plan.requests[i].messages == msgs by {
        forall i | 0 <= i < |r.plan.requests|
          ensures r.plan.requests[i].messages == msgs
        {
          var m := r.plan.requests[i].messages;
          assert m == m[..|history|] + [m[|history|]];
        }
      }
      assert forall i :: |r.plan.requests| <= i < |reqs| ==>
        reqs[i] == r.check.requests[i - |r.plan.requests|];
    } else {
      assert PlanReplyText(r) == PlanUsage;
    }
  }

  // ---------------------------------------------------------------------
  // /new_skill

  const NewSkillFormat: string := "Формат: /new_skill file_name code"

  /** The file name `handle_new_skill` writes: ".py" is appended unless already there. */
  function WithPySuffix(name: string): (file: string)
    ensures EndsWith(file, ".py")
    ensures StartsWith(file, name) && |file| <= |name| + 3
    ensures EndsWith(name, ".py") <==> file == name
    ensures !EndsWith(name, ".py") ==> |file| == |name| + 3
  {
    if EndsWith(name, ".py") then name else name + ".py"
  }

  /** Suffixing is idempotent. */
  lemma WithPySuffixIdempotent(name: string)
    ensures WithPySuffix(WithPySuffix(name)) == WithPySuffix(name)
  {
  }

  /** What `handle_new_skill` does: the format reply, or a write of `code` to `skills/<filename>`. */
  datatype NewSkillOutcome = FormatReply | WriteSkill(filename: string, code: string)

  /**
   * `handle_new_skill`: the text is split on whitespace into at most three
   * parts; fewer than three give the format reply and nothing is written.
   * Otherwise the second part, suffixed, names the file and the third part
   * is its content.
   */
  function NewSkillCommand(text: string): (r: NewSkillOutcome)
    ensures r.FormatReply? <==> |SplitWhitespace(text, 2)| < 3
    ensures r.WriteSkill? ==>
              EndsWith(r.filename, ".py") && |r.filename| > 0 && NoSpace(r.filename) &&
              r.code != [] && !IsSpace(r.code[0])
  {
    var parts := SplitWhitespace(text, 2);
    if |parts| < 3 then FormatReply
    else
      var filename := WithPySuffix(parts[1]);
      assert NoSpace(filename) by {
        assert forall i :: |parts[1]| <= i < |filename| ==> filename[i] in ".py";
      }
      WriteSkill(filename, parts[2])
  }

  /**
   * The reply `handle_new_skill` sends: the format reminder when nothing is
   * written, otherwise the confirmation naming the file written.
   */
  function NewSkillReply(r: NewSkillOutcome): (reply: string)
    ensures reply == NewSkillFormat <==> r.FormatReply?
  {
    match r
    case FormatReply => NewSkillFormat
    case WriteSkill(filename, _) =>
      var confirmation := "✅ Навык `" + filename + "` записан. Используйте /reload";
      assert confirmation[0] != NewSkillFormat[0];
      confirmation
  }

  /**
   * "/new_skill name code" writes `code` under `name` with ".py" appended
   * when missing, whatever whitespace (spaces, tabs, newlines) surrounds
   * the command and separates the three parts: the command up to `e1`,
   * the name from `a2` to `e2`, the code from `a3` on.
   */
  lemma NewSkillWrites(text: string, a1: nat, e1: nat, a2: nat, e2: nat, a3: nat)
    requires 0 <= a1 < e1 < a2 < e2 < a3 < |text|
    requires forall k :: 0 <= k < a1 ==> IsSpace(text[k])
    requires forall k :: a1 <= k < e1 ==> !IsSpace(text[k])
    requires forall k :: e1 <= k < a2 ==> IsSpace(text[k])
    requires forall k :: a2 <= k < e2 ==> !IsSpace(text[k])
    requires forall k :: e2 <= k < a3 ==> IsSpace(text[k])
    requires !IsSpace(text[a3])
    ensures NewSkillCommand(text) == WriteSkill(WithPySuffix(text[a2..e2]), text[a3..])
  {
    SplitWhitespaceThree(text, a1, e1, a2, e2, a3);
  }

  // ---------------------------------------------------------------------
  // /review

  /** One line of the `/review` history text: "role: content". */
  function HistoryLine(m: Message): string {
    m.role + ": " + m.content
  }

  function HistoryLines(history: seq<Message>): (lines: seq<string>)
    ensures |lines| == |history|
    ensures forall i :: 0 <= i < |history| ==> lines[i] == HistoryLine(history[i])
  {
    seq(|history|, i requires 0 <= i < |history| => HistoryLine(history[i]))
  }

  /** The history text of `cmd_review`: one line per stored message, joined by newlines. */
  function HistoryText(history: seq<Message>): string {
    Join('\n', HistoryLines(history))
  }

  /** The history text of one more message: its line, after a newline unless it is the first. */
  lemma HistoryTextAppend(history: seq<Message>, m: Message)
    ensures HistoryText(history + [m]) ==
              if history == [] then HistoryLine(m) else HistoryText(history) + "\n" + HistoryLine(m)
  {
    assert HistoryLines(history + [m]) == HistoryLines(history) + [HistoryLine(m)];
    JoinAppend('\n', HistoryLines(history), HistoryLine(m));
    if history != [] {
      assert HistoryLines(history) != [];
    }
  }

  const ReviewPrefix: string := "Анализируй историю диалога: "

  /**
   * `cmd_review`: one verifier call whose every request carries exactly one
   * user message, the prefix followed by the history text.
   */
  function ReviewCommand(endpoint: Endpoint, history: seq<Message>): (ex: Exchange)
    ensures ex.requests != [] && ex.requests[0].model == VerifierModel
    ensures forall i :: 0 <= i < |ex.requests| ==>
              ex.requests[i].messages == [Message("user", ReviewPrefix + HistoryText(history))]
  {
    VerifierProcess(endpoint, ReviewPrefix + HistoryText(history))
  }

  /**
   * When no role or content holds a newline, the history text splits back
   * into exactly its lines, one per stored message in order.
   */
  lemma HistoryTextSplits(history: seq<Message>)
    requires history != []
    requires forall i :: 0 <= i < |history| ==> '\n' !in history[i].role && '\n' !in history[i].content
    ensures Split(HistoryText(history), '\n') == HistoryLines(history)
  {
    var lines := HistoryLines(history);
    forall i | 0 <= i < |lines|
      ensures '\n' !in lines[i]
    {
      assert lines[i] == history[i].role + ": " + history[i].content;
    }
    SplitJoin(lines, '\n');
  }

  // ---------------------------------------------------------------------
  // load_skills

  /** A router returned by a skill's `setup()`. */
  datatype Router = Router(id: string)

  /**
   * The outcome of `import_module`, `reload` and `setup()` for one module
   * name: a router, a module without `setup`, or an exception from any of
   * the three steps.
   */
  datatype ModuleLoad = HasSetup(router: Router) | NoSetup | Raises

  type ModuleOracle = string -> ModuleLoad

  /** A directory entry `load_skills` imports: ends in ".py" and does not start with "__". */
  predicate IsCandidate(file: string) {
    EndsWith(file, ".py") && !StartsWith(file, "__")
  }

  const PackagePrefix: string := "skills."

  /** The module name of a skill file: "skills." and the file name without ".py". */
  function ModuleName(file: string): (name: string)
    requires EndsWith(file, ".py")
    ensures StartsWith(name, PackagePrefix)
    ensures name[|PackagePrefix|..] + ".py" == file
  {
    var stem := file[..|file| - 3];
    assert stem + ".py" == file;
    PackagePrefix + stem
  }

  /** `file` is a candidate whose loading raises. */
  predicate Raising(file: string, load: ModuleOracle) {
    IsCandidate(file) && load(ModuleName(file)).Raises?
  }

  /** Some candidate of `files` raises when loaded. */
  predicate Aborts(files: seq<string>, load: ModuleOracle)
    decreases |files|
  {
    files != [] && (Raising(files[0], load) || Aborts(files[1..], load))
  }

  /**
   * The routers `load_skills` includes for a listing: candidates in listing
   * order, a `setup()` router each, modules without `setup` skipped, and
   * nothing after the first exception.
   */
  function LoadedRouters(files: seq<string>, load: ModuleOracle): seq<Router>
    decreases |files|
  {
    if files == [] then []
    else if !IsCandidate(files[0]) then LoadedRouters(files[1..], load)
    else
      match load(ModuleName(files[0]))
      case Raises => []
      case NoSetup => LoadedRouters(files[1..], load)
      case HasSetup(r) => [r] + LoadedRouters(files[1..], load)
  }

  /** Reference: the `setup()` routers of every candidate, ignoring exceptions. */
  function SetupRouters(files: seq<string>, load: ModuleOracle): seq<Router>
    decreases |files|
  {
    if files == [] then []
    else
      var rest := SetupRouters(files[1..], load);
      if IsCandidate(files[0]) && load(ModuleName(files[0])).HasSetup? then
        [load(ModuleName(files[0])).router] + rest
      else rest
  }

  /** The index of the first candidate that raises, or `|files|` when none does. */
  function AbortIndex(files: seq<string>, load: ModuleOracle): (n: nat)
    ensures n <= |files|
    ensures forall i :: 0 <= i < n ==> !Raising(files[i], load)
    ensures n < |files| ==> Raising(files[n], load)
    ensures n < |files| <==> Aborts(files, load)
    decreases |files|
  {
    if files == [] then 0
    else if Raising(files[0], load) then 0
    else
      var n := AbortIndex(files[1..], load);
      assert forall i :: 1 <= i < n + 1 ==> files[i] == files[1..][i - 1];
      1 + n
  }

  /**
   * Loading a listing is loading its first part and then, unless that part
   * raised, its second part.
   */
  lemma {:induction false} LoadedAppend(a: seq<string>, b: seq<string>, load: ModuleOracle)
    ensures Aborts(a + b, load) <==> Aborts(a, load) || Aborts(b, load)
    ensures LoadedRouters(a + b, load) ==
            if Aborts(a, load) then LoadedRouters(a, load) else LoadedRouters(a, load) + LoadedRouters(b, load)
    decreases |a|
  {
    if a == [] {
      assert a + b == b;
    } else {
      var ab := a + b;
      assert ab[1..] == a[1..] + b;
      assert ab[0] == a[0];
      LoadedAppend(a[1..], b, load);
      if IsCandidate(a[0]) {
        match load(ModuleName(a[0]))
        case Raises =>
        case NoSetup =>
        case HasSetup(r) =>
          var x, y := LoadedRouters(a[1..], load), LoadedRouters(b, load);
          assert [r] + (x + y) == ([r] + x) + y;
      }
    }
  }

  /**
   * `load_skills` includes exactly the `setup()` routers of the candidates
   * before the first one that raises, in listing order.
   */
  lemma {:induction false} LoadedIsSetupBeforeAbort(files: seq<string>, load: ModuleOracle)
    ensures LoadedRouters(files, load) == SetupRouters(files[..AbortIndex(files, load)], load)
    decreases |files|
  {
    if files != [] {
      var n := AbortIndex(files, load);
      if Raising(files[0], load) {
        assert files[..n] == [];
      } else {
        LoadedIsSetupBeforeAbort(files[1..], load);
        assert files[..n][1..] == files[1..][..n - 1];
        assert files[..n][0] == files[0];
      }
    }
  }

  /**
   * A candidate that raises ends loading: what was included before it
   * stays, and nothing after it is included.
   */
  lemma RaiseStopsLoading(files: seq<string>, i: nat, load: ModuleOracle)
    requires i < |files| && Raising(files[i], load)
    ensures LoadedRouters(files, load) == LoadedRouters(files[..i], load)
  {
    assert files == files[..i] + files[i..];
    LoadedAppend(files[..i], files[i..], load);
    assert files[i..][0] == files[i];
  }

  /** A candidate without `setup` contributes nothing, and loading goes on after it. */
  lemma NoSetupSkipped(files: seq<string>, i: nat, load: ModuleOracle)
    requires i < |files| && IsCandidate(files[i]) && load(ModuleName(files[i])).NoSetup?
    ensures LoadedRouters(files, load) == LoadedRouters(files[..i] + files[i + 1..], load)
  {
    assert files == files[..i] + files[i..];
    LoadedAppend(files[..i], files[i..], load);
    LoadedAppend(files[..i], files[i + 1..], load);
    assert files[i..][0] == files[i] && files[i..][1..] == files[i + 1..];
  }

  /** What was loaded from a prefix of the listing begins what is loaded from all of it. */
  lemma LoadedPrefix(files: seq<string>, i: nat, load: ModuleOracle)
    requires i <= |files|
    ensures LoadedRouters(files[..i], load) <= LoadedRouters(files, load)
  {
    assert files == files[..i] + files[i..];
    LoadedAppend(files[..i], files[i..], load);
  }

  /** When no candidate raises, every `setup()` router is included, in listing order. */
  lemma NoRaiseLoadsAll(files: seq<string>, load: ModuleOracle)
    requires !Aborts(files, load)
    ensures LoadedRouters(files, load) == SetupRouters(files, load)
  {
    LoadedIsSetupBeforeAbort(files, load);
    assert files[..AbortIndex(files, load)] == files;
  }

  /**
   * A file "<stem>.py" is a candidate exactly when the stem does not start
   * with "__" (so "_helper.py" is loaded), and it names module "skills.<stem>".
   */
  lemma CandidateModule(stem: string)
    ensures IsCandidate(stem + ".py") <==> !StartsWith(stem, "__")
    ensures ModuleName(stem + ".py") == PackagePrefix + stem
  {
    var file := stem + ".py";
    assert file[..|file| - 3] == stem;
    if |stem| >= 2 {
      assert file[..2] == stem[..2];
    } else {
      assert !StartsWith(file, "__") by {
        assert |file| >= 2 ==> file[1] == '.' || file[0] == '.';
      }
    }
  }

  const ReloadReply: string := "🔄 Все навыки перезагружены!"

  /** `dp`, the dispatcher: the part of it `load_skills` changes, its list of sub-routers. */
  class Dispatcher {
    var subRouters: seq<Router>

    constructor ()
      ensures subRouters == []
    {
      subRouters := [];
    }

    /** `dp.include_router(router)`. */
    method IncludeRouter(router: Router)
      modifies this
      ensures subRouters == old(subRouters) + [router]
    {
      subRouters := subRouters + [router];
    }

    /**
     * `load_skills()`. The sub-routers are cleared, then each candidate of
     * the listing is loaded in order and its `setup()` router included.
     * `listing` is `None` when `import skills` or `os.listdir` raises. Any
     * exception ends the loop and is swallowed. The result depends on the
     * listing and the modules alone, never on the routers held before, so
     * two runs over the same listing and modules leave the same routers.
     */
    method LoadSkills(listing: Option<seq<string>>, load: ModuleOracle)
      modifies this
      ensures subRouters == if listing.None? then [] else LoadedRouters(listing.value, load)
    {
      subRouters := [];
      if listing.None? {
        return;
      }
      var files := listing.value;
      var i := 0;
      while i < |files|
        invariant 0 <= i <= |files|
        invariant !Aborts(files[..i], load)
        invariant subRouters == LoadedRouters(files[..i], load)
      {
        var file := files[i];
        assert files[..i + 1] == files[..i] + [file];
        LoadedAppend(files[..i], [file], load);
        if IsCandidate(file) {
          var outcome := load(ModuleName(file));
          match outcome
          case Raises =>
            RaiseStopsLoading(files, i, load);
            return;
          case NoSetup =>
          case HasSetup(router) =>
            IncludeRouter(router);
        }
        i := i + 1;
      }
      assert files[..i] == files;
    }

    /** `cmd_reload`: reload the skills, then answer the same text whatever happened. */
    method Reload(listing: Option<seq<string>>, load: ModuleOracle) returns (reply: string)
      modifies this
      ensures subRouters == if listing.None? then [] else LoadedRouters(listing.value, load)
      ensures reply == ReloadReply
    {
      LoadSkills(listing, load);
      reply := ReloadReply;
    }
  }
}
