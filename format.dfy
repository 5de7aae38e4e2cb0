/**
 * The console formatter: a log record and a colour escape become one
 * bordered, coloured text block.
 */
module Format {
  import opened Colors

  /**
   * A log record. The three optional contents are plain strings, and the
   * empty string means "absent", which is how the formatter tests them.
   */
  datatype Record = Record(
    filename: string,
    line: string,
    timestamp: string,
    status: string,
    message: string,
    fault: string)

  /** The five layouts the formatter can produce, one per branch. */
  datatype Layout = StatusOnly | MessageOnly | FaultOnly | Bare | Combined

  /**
   * The branch the formatter takes: the guards are tried in order and the
   * first that holds wins. The fourth guard always holds once the first
   * three have failed, so Combined is never chosen.
   */
  function SelectLayout(r: Record): (l: Layout)
    ensures l != Combined
    ensures l == StatusOnly <==> r.status != ""
    ensures l == MessageOnly <==> r.status == "" && r.message != ""
    ensures l == FaultOnly <==> r.status == "" && r.message == "" && r.fault != ""
    ensures l == Bare <==> r.status == "" && r.message == "" && r.fault == ""
  {
    if |r.status| > 0 then StatusOnly
    else if |r.message| > 0 then MessageOnly
    else if |r.fault| > 0 then FaultOnly
    else if |r.status| <= 0 && |r.message| <= 0 && |r.fault| <= 0 then Bare
    else Combined
  }

  /** The lines every block opens with: colour, filename, line and timestamp. */
  function Head(r: Record, color: string): string {
    color + "\n| Filename: " + r.filename + "\n| Line: " + r.line + "\n| Timestamp: " + r.timestamp
  }

  /** The text every block closes with. */
  function Tail(): string {
    "\n" + Reset
  }

  /** The console block for record `r` in colour `color`. */
  function FormatLogger(r: Record, color: string): (out: string)
    ensures Head(r, color) <= out
    ensures |Tail()| <= |out| && out[|out| - |Tail()|..] == Tail()
  {
    var f, l, t := r.filename, r.line, r.timestamp;
    match SelectLayout(r)
    case StatusOnly =>
      color + "\n| Filename: " + f + "\n| Line: " + l + "\n| Timestamp: " + t + "\n| Status: " + r.status + "\n" + Reset
    case MessageOnly =>
      color + "\n| Filename: " + f + "\n| Line: " + l + "\n| Timestamp: " + t + "\n| Message: " + r.message + "\n" + Reset
    case FaultOnly =>
      color + "\n| Filename: " + f + "\n| Line: " + l + "\n| Timestamp: " + t + "\n| Fault: " + r.fault + "\n" + Reset
    case Bare =>
      color + "\n| Filename: " + f + "\n| Line: " + l + "\n| Timestamp: " + t + "\n" + Reset
    case Combined =>
      color + "\n| Filename: " + f + "\n| Line: " + l + "\n| Timestamp: " + t + "\n| Status: " + r.status
      + "\n| Message: " + r.message + "\n| Fault: " + r.fault + "\n" + Reset
  }

  // ---------------------------------------------------------------------
  // A reference description of the block, independent of the branches:
  // a list of labelled fields, each rendered as one "| Label: value" line.
  // ---------------------------------------------------------------------

  datatype Field = Field(name: string, value: string)

  /** One "\n| Label: value" line per field, in order. */
  function Lines(fs: seq<Field>): string {
    if fs == [] then "" else "\n| " + fs[0].name + ": " + fs[0].value + Lines(fs[1..])
  }

  /** A block: the colour, the field lines, a newline and the reset escape. */
  function Render(color: string, fs: seq<Field>): string {
    color + Lines(fs) + Tail()
  }

  /** The fields every record shows. */
  function BaseFields(r: Record): seq<Field> {
    [Field("Filename", r.filename), Field("Line", r.line), Field("Timestamp", r.timestamp)]
  }

  /** The optional fields of a record, in the formatter's order of precedence. */
  function OptionalFields(r: Record): seq<Field> {
    [Field("Status", r.status), Field("Message", r.message), Field("Fault", r.fault)]
  }

  /**
   * The first field of `fs` with a non-empty value, as a one-element
   * sequence, or the empty sequence when every value is empty.
   */
  function FirstNonEmpty(fs: seq<Field>): (shown: seq<Field>)
    ensures |shown| <= 1
    ensures shown == [] <==> forall i :: 0 <= i < |fs| ==> fs[i].value == ""
    ensures shown != [] ==>
      exists i :: 0 <= i < |fs| && shown[0] == fs[i] && fs[i].value != "" &&
        forall j :: 0 <= j < i ==> fs[j].value == ""
  {
    if fs == [] then []
    else if fs[0].value != "" then [fs[0]]
    else
      var rest := FirstNonEmpty(fs[1..]);
      assert forall i :: 1 <= i < |fs| ==> fs[i] == fs[1..][i - 1];
      rest
  }

  /** What the block shows of `r`: the base fields and at most one optional one. */
  function ShownFields(r: Record): seq<Field> {
    BaseFields(r) + FirstNonEmpty(OptionalFields(r))
  }

  // ---------------------------------------------------------------------
  // Lemmas
  // ---------------------------------------------------------------------

  lemma {:induction false} LinesAppend(a: seq<Field>, b: seq<Field>)
    ensures Lines(a + b) == Lines(a) + Lines(b)
  {
    if a == [] {
      assert a + b == b;
    } else {
      assert (a + b)[1..] == a[1..] + b;
      LinesAppend(a[1..], b);
    }
  }

  lemma LinesOne(f: Field)
    ensures Lines([f]) == "\n| " + f.name + ": " + f.value
  {
  }

  lemma LinesBase(r: Record)
    ensures Lines(BaseFields(r)) ==
      "\n| Filename: " + r.filename + "\n| Line: " + r.line + "\n| Timestamp: " + r.timestamp
  {
    var b := BaseFields(r);
    assert b == [b[0]] + [b[1]] + [b[2]];
    LinesAppend([b[0]] + [b[1]], [b[2]]);
    LinesAppend([b[0]], [b[1]]);
    LinesOne(b[0]);
    LinesOne(b[1]);
    LinesOne(b[2]);
  }

  /** The blocks with a base part and an extra list of field lines. */
  lemma {:induction false} RenderBase(r: Record, color: string, extra: seq<Field>)
    ensures Render(color, BaseFields(r) + extra) == Head(r, color) + Lines(extra) + Tail()
  {
    LinesAppend(BaseFields(r), extra);
    LinesBase(r);
  }

  /** The reference selects, of the optional fields, the one the branches pick. */
  lemma ShownOptional(r: Record)
    ensures FirstNonEmpty(OptionalFields(r)) ==
      match SelectLayout(r)
      case StatusOnly => [Field("Status", r.status)]
      case MessageOnly => [Field("Message", r.message)]
      case FaultOnly => [Field("Fault", r.fault)]
      case _ => []
  {
    var opt := OptionalFields(r);
    assert opt[1..] == [opt[1], opt[2]];
    assert opt[1..][1..] == [opt[2]];
    assert opt[1..][1..][1..] == [];
  }

  /** The text of one optional line, as the reference renders it. */
  lemma OptionalLine(name: string, value: string, h: string)
    ensures h + Lines([Field(name, value)]) + Tail() == h + ("\n| " + name + ": ") + value + "\n" + Reset
  {
  }

  /** Each branch is the head, its own optional line, and the tail. */
  lemma FormatBranches(r: Record, color: string)
    ensures FormatLogger(r, color) ==
      Head(r, color) + Lines(FirstNonEmpty(OptionalFields(r))) + Tail()
  {
    ShownOptional(r);
    var h := Head(r, color);
    match SelectLayout(r)
    case StatusOnly =>
      OptionalLine("Status", r.status, h);
      assert "\n| " + "Status" + ": " == "\n| Status: ";
    case MessageOnly =>
      OptionalLine("Message", r.message, h);
      assert "\n| " + "Message" + ": " == "\n| Message: ";
    case FaultOnly =>
      OptionalLine("Fault", r.fault, h);
      assert "\n| " + "Fault" + ": " == "\n| Fault: ";
    case Bare =>
  }

  /**
   * The formatter agrees with the reference: the block lists filename, line
   * and timestamp, followed by the first non-empty of status, message and
   * fault, if any.
   */
  lemma FormatIsRender(r: Record, color: string)
    ensures FormatLogger(r, color) == Render(color, ShownFields(r))
  {
    RenderBase(r, color, FirstNonEmpty(OptionalFields(r)));
    FormatBranches(r, color);
  }

  /**
   * At most one of the Status, Message and Fault lines appears, and only one
   * whose value is non-empty.
   */
  lemma AtMostOneOptionalLine(r: Record, color: string)
    ensures exists extra: seq<Field> ::
      |extra| <= 1 && FormatLogger(r, color) == Render(color, BaseFields(r) + extra) &&
      forall k :: 0 <= k < |extra| ==> extra[k] in OptionalFields(r) && extra[k].value != ""
  {
    FormatIsRender(r, color);
    ShownOptional(r);
    var opt := OptionalFields(r);
    var extra := FirstNonEmpty(opt);
    assert forall k :: 0 <= k < |extra| ==> extra[k] == opt[0] || extra[k] == opt[1] || extra[k] == opt[2];
    assert |extra| <= 1 && FormatLogger(r, color) == Render(color, BaseFields(r) + extra);
  }

  /** A non-empty status masks the message and the fault. */
  lemma StatusBlock(r: Record, color: string)
    requires r.status != ""
    ensures FormatLogger(r, color) == Render(color, BaseFields(r) + [Field("Status", r.status)])
    ensures FormatLogger(r, color) ==
      color + "\n| Filename: " + r.filename + "\n| Line: " + r.line + "\n| Timestamp: " + r.timestamp
      + "\n| Status: " + r.status + "\n" + Reset
    ensures forall m, f :: FormatLogger(r.(message := m, fault := f), color) == FormatLogger(r, color)
  {
    FormatIsRender(r, color);
  }

  /** With no status, a non-empty message is shown and the fault dropped. */
  lemma MessageBlock(r: Record, color: string)
    requires r.status == "" && r.message != ""
    ensures FormatLogger(r, color) == Render(color, BaseFields(r) + [Field("Message", r.message)])
    ensures forall f :: FormatLogger(r.(fault := f), color) == FormatLogger(r, color)
  {
    FormatIsRender(r, color);
    ShownOptional(r);
  }

  /** With no status and no message, a non-empty fault is shown. */
  lemma FaultBlock(r: Record, color: string)
    requires r.status == "" && r.message == "" && r.fault != ""
    ensures FormatLogger(r, color) == Render(color, BaseFields(r) + [Field("Fault", r.fault)])
  {
    FormatIsRender(r, color);
    ShownOptional(r);
  }

  /** With all three empty, only filename, line and timestamp are shown. */
  lemma BareBlock(r: Record, color: string)
    requires r.status == "" && r.message == "" && r.fault == ""
    ensures FormatLogger(r, color) == Render(color, BaseFields(r))
  {
    FormatIsRender(r, color);
    assert BaseFields(r) + [] == BaseFields(r);
  }
}
