/**
 * The public entry points. Each call captures its caller's location and the
 * time, builds a record, appends it to the log file, prints it, and may end
 * the process. Here a call becomes a Plan: the record it builds, the strings
 * it hands to the console logger in order, and how the process goes on.
 */
module Facade {
  import opened Colors
  import opened Format

  /** How the process continues after the call. */
  datatype Outcome =
    | Continue  // the call returns to its caller
    | Exit      // the logger prints, then the process exits with status 1
    | Panic     // the logger prints, then panics with the printed text

  /** What the runtime supplies: the caller's file, its line as text, the RFC 3339 time. */
  datatype Caller = Caller(filename: string, line: string, timestamp: string)

  /** The seven entry points with their arguments; a fault is its rendered text. */
  datatype EntryPoint =
    | Simple
    | Status(status: string)
    | Message(message: string)
    | Error(fault: string)
    | Fatal(fault: string)
    | Panic(fault: string)
    | Complete(status: string, message: string, fault: string)

  /** The step of saving the record at which an error can stop it. */
  datatype SaveStep =
    | Getwd    // the working directory cannot be resolved
    | Glob     // the log file pattern is malformed
    | Open     // the log file cannot be opened for appending
    | Marshal  // the record cannot be serialised
    | Write    // the serialised record cannot be written
    | Close    // the log file cannot be closed

  /** The result of the file step, which the model does not perform. */
  datatype SaveResult = Saved | Failed(step: SaveStep, detail: string)

  /** How the call turns out. */
  datatype Plan = Plan(record: Record, console: seq<string>, outcome: Outcome)

  /**
   * The text the save step prints before it exits the process; `detail` is
   * the rendering of the underlying error and ends the message.
   */
  function SaveFailureMessage(step: SaveStep, detail: string): (m: string)
    ensures "Unable to " <= m
    ensures |detail| < |m| && m[|m| - |detail|..] == detail
  {
    match step
    case Getwd => "Unable to get working directory: " + detail
    case Glob => "Unable to find the log file: " + detail
    case Open => "Unable to create/append/open file: " + detail
    case Marshal => "Unable to marshal log: " + detail
    case Write => "Unable to write to file: " + detail
    case Close => "Unable to close file: " + detail
  }

  /**
   * The colour and outcome for a status, by exact, case-sensitive comparison:
   * the colour is always one of the bright ones, and a status the switch
   * does not recognise gets bright cyan and continues.
   */
  function StatusSwitch(status: string): (r: (string, Outcome))
    ensures r.0 in Brights
    ensures !Recognised(status) ==> r == (BrightCyan, Continue)
    ensures r.1 != Continue ==> status == "fatal" || status == "panic"
  {
    if status == "success" then (BrightGreen, Continue)
    else if status == "info" then (BrightBlue, Continue)
    else if status == "error" then (BrightYellow, Continue)
    else if status == "fatal" then (BrightMagenta, Exit)
    else if status == "panic" then (BrightRed, Outcome.Panic)
    else (BrightCyan, Continue)
  }

  /** The record an entry point builds: it fills exactly the fields it takes. */
  function BuildRecord(e: EntryPoint, c: Caller): (r: Record)
    ensures r.filename == c.filename && r.line == c.line && r.timestamp == c.timestamp
  {
    var base := Record(c.filename, c.line, c.timestamp, "", "", "");
    match e
    case Simple => base
    case Status(s) => base.(status := s)
    case Message(m) => base.(message := m)
    case Error(f) => base.(fault := f)
    case Fatal(f) => base.(fault := f)
    case Panic(f) => base.(fault := f)
    case Complete(s, m, f) => base.(status := s, message := m, fault := f)
  }

  /** One call of entry point `e` from `c`, whose save step ended as `save`. */
  function PlanCall(e: EntryPoint, c: Caller, save: SaveResult): (p: Plan)
    ensures p.record == BuildRecord(e, c)
    ensures save.Failed? ==>
      p.console == [SaveFailureMessage(save.step, save.detail)] && p.outcome == Exit
    ensures save.Saved? ==> |p.console| == (if e.Error? then 2 else 1)
    ensures save.Saved? && e.Error? ==> p.console[0] == e.fault
  {
    var r := BuildRecord(e, c);
    if save.Failed? then
      Plan(r, [SaveFailureMessage(save.step, save.detail)], Exit)
    else
      match e
      case Simple => Plan(r, [FormatLogger(r, BrightCyan)], Continue)
      case Status(s) =>
        var (color, outcome) := StatusSwitch(s);
        Plan(r, [FormatLogger(r, color)], outcome)
      case Message(_) => Plan(r, [FormatLogger(r, BrightCyan)], Continue)
      case Error(_) => Plan(r, [r.fault, FormatLogger(r, BrightYellow)], Continue)
      case Fatal(_) => Plan(r, [FormatLogger(r, BrightMagenta)], Continue)
      case Panic(_) => Plan(r, [FormatLogger(r, BrightRed)], Continue)
      case Complete(s, _, _) =>
        var (color, outcome) := StatusSwitch(s);
        Plan(r, [FormatLogger(r, color)], outcome)
  }

  /** The block a saved call prints last. */
  function Block(p: Plan): string
    requires |p.console| >= 1
  {
    p.console[|p.console| - 1]
  }

  /** The statuses the switch recognises. */
  predicate Recognised(status: string) {
    status == "success" || status == "info" || status == "error" || status == "fatal" || status == "panic"
  }

  /** Entry points that take a status and print in the colour it selects. */
  predicate TakesStatus(e: EntryPoint) {
    e.Status? || e.Complete?
  }

  // ---------------------------------------------------------------------
  // Lemmas
  // ---------------------------------------------------------------------

  /**
   * The status switch compares exactly: each colour is chosen for its one
   * status only, and every other string, the empty one and differently
   * cased ones included, gets the default colour.
   */
  lemma StatusColors(s: string)
    ensures StatusSwitch(s).0 == BrightGreen <==> s == "success"
    ensures StatusSwitch(s).0 == BrightBlue <==> s == "info"
    ensures StatusSwitch(s).0 == BrightYellow <==> s == "error"
    ensures StatusSwitch(s).0 == BrightMagenta <==> s == "fatal"
    ensures StatusSwitch(s).0 == BrightRed <==> s == "panic"
    ensures StatusSwitch(s).0 == BrightCyan <==> !Recognised(s)
  {
  }

  /** Only "fatal" exits and only "panic" panics; every other status continues. */
  lemma StatusOutcomes(s: string)
    ensures StatusSwitch(s).1 == Exit <==> s == "fatal"
    ensures StatusSwitch(s).1 == Outcome.Panic <==> s == "panic"
    ensures StatusSwitch(s).1 == Continue <==> s != "fatal" && s != "panic"
  {
  }

  /**
   * Examples of the exact comparison; a corollary of StatusColors and
   * StatusOutcomes, stated for the three strings most easily confused.
   */
  lemma StatusCaseSensitive()
    ensures StatusSwitch("Success") == (BrightCyan, Continue)
    ensures StatusSwitch("FATAL") == (BrightCyan, Continue)
    ensures StatusSwitch("") == (BrightCyan, Continue)
  {
  }

  /** Each entry point fills the fields it takes and leaves the others empty. */
  lemma FillsOwnFields(e: EntryPoint, c: Caller)
    ensures var r := BuildRecord(e, c);
      (r.status != "" ==> TakesStatus(e)) &&
      (r.message != "" ==> e.Message? || e.Complete?) &&
      (r.fault != "" ==> e.Error? || e.Fatal? || e.Panic? || e.Complete?)
    ensures e.Simple? ==> BuildRecord(e, c) == Record(c.filename, c.line, c.timestamp, "", "", "")
    ensures TakesStatus(e) ==> BuildRecord(e, c).status == e.status
    ensures e.Message? || e.Complete? ==> BuildRecord(e, c).message == e.message
    ensures e.Error? || e.Fatal? || e.Panic? || e.Complete? ==> BuildRecord(e, c).fault == e.fault
  {
  }

  /**
   * Each save step prints its own message: whatever the details, messages
   * of two different steps differ, so the text names the step that failed.
   */
  lemma SaveMessagesIdentifyStep(s1: SaveStep, d1: string, s2: SaveStep, d2: string)
    requires s1 != s2
    ensures SaveFailureMessage(s1, d1) != SaveFailureMessage(s2, d2)
  {
    MessageKey(s1, d1);
    MessageKey(s2, d2);
  }

  /** The two characters after "Unable to " in each step's message. */
  function StepKey(step: SaveStep): (char, char) {
    match step
    case Getwd => ('g', 'e')
    case Glob => ('f', 'i')
    case Open => ('c', 'r')
    case Marshal => ('m', 'a')
    case Write => ('w', 'r')
    case Close => ('c', 'l')
  }

  lemma MessageKey(step: SaveStep, detail: string)
    ensures var m := SaveFailureMessage(step, detail); |m| > 11 && (m[10], m[11]) == StepKey(step)
  {
  }

  /**
   * The process ends exactly when saving fails, or when a status-taking
   * entry point is given "fatal" (exit) or "panic" (panic).
   */
  lemma PlanOutcome(e: EntryPoint, c: Caller, save: SaveResult)
    ensures PlanCall(e, c, save).outcome == Exit <==>
      save.Failed? || (TakesStatus(e) && e.status == "fatal")
    ensures PlanCall(e, c, save).outcome == Outcome.Panic <==>
      save.Saved? && TakesStatus(e) && e.status == "panic"
  {
  }

  /**
   * The fault-only entry points never end the process once the record is
   * saved: Error prints the fault and then a yellow block, Fatal a magenta
   * block and Panic a red one, each showing the fault line when the fault
   * text is not empty.
   */
  lemma FaultEntries(e: EntryPoint, c: Caller)
    requires e.Error? || e.Fatal? || e.Panic?
    ensures PlanCall(e, c, Saved).outcome == Continue
    ensures var color := if e.Error? then BrightYellow else if e.Fatal? then BrightMagenta else BrightRed;
      PlanCall(e, c, Saved).console ==
        (if e.Error? then [e.fault] else []) + [FormatLogger(BuildRecord(e, c), color)] &&
      (e.fault != "" ==>
        Block(PlanCall(e, c, Saved)) == Render(color, BaseFields(BuildRecord(e, c)) + [Field("Fault", e.fault)]))
  {
    var color := if e.Error? then BrightYellow else if e.Fatal? then BrightMagenta else BrightRed;
    if e.fault != "" {
      FaultBlock(BuildRecord(e, c), color);
    }
  }

  /**
   * Simple and Message always print in the default colour and continue;
   * Simple shows only the base fields and Message shows its message.
   */
  lemma DefaultColorEntries(e: EntryPoint, c: Caller)
    requires e.Simple? || e.Message?
    ensures PlanCall(e, c, Saved).outcome == Continue
    ensures PlanCall(e, c, Saved).console == [FormatLogger(BuildRecord(e, c), BrightCyan)]
    ensures e.Simple? || e.message == "" ==>
      Block(PlanCall(e, c, Saved)) == Render(BrightCyan, BaseFields(BuildRecord(e, c)))
    ensures e.Message? && e.message != "" ==>
      Block(PlanCall(e, c, Saved)) ==
        Render(BrightCyan, BaseFields(BuildRecord(e, c)) + [Field("Message", e.message)])
  {
    var r := BuildRecord(e, c);
    if e.Message? && e.message != "" {
      MessageBlock(r, BrightCyan);
    } else {
      BareBlock(r, BrightCyan);
    }
  }

  /**
   * Status and Complete share one table: with the same status they end the
   * same way, and a non-empty status masks Complete's message and fault, so
   * both print the same block.
   */
  lemma StatusMatchesComplete(c: Caller, s: string, m: string, f: string, save: SaveResult)
    ensures PlanCall(Status(s), c, save).outcome == PlanCall(Complete(s, m, f), c, save).outcome
    ensures s != "" ==> PlanCall(Status(s), c, save).console == PlanCall(Complete(s, m, f), c, save).console
  {
  }

  /**
   * A status-taking entry point prints, once saved, one block in the colour
   * its status selects, showing the status when it is non-empty.
   */
  lemma StatusEntries(e: EntryPoint, c: Caller)
    requires TakesStatus(e)
    ensures PlanCall(e, c, Saved).console == [FormatLogger(BuildRecord(e, c), StatusSwitch(e.status).0)]
    ensures PlanCall(e, c, Saved).outcome == StatusSwitch(e.status).1
    ensures e.status != "" ==>
      Block(PlanCall(e, c, Saved)) ==
        Render(StatusSwitch(e.status).0, BaseFields(BuildRecord(e, c)) + [Field("Status", e.status)])
  {
    if e.status != "" {
      StatusBlock(BuildRecord(e, c), StatusSwitch(e.status).0);
    }
  }
}
