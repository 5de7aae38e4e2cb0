# teavet console logger: a Dafny model

teavet is a small structured logger in Go. Every logging call captures the
caller's file and line and the current time. It builds a record with optional
status, message and fault fields, appends the record to `teavet.log` as
indented JSON, and prints a coloured, bordered block to the console. Some
calls then end the process.

This project models the two deterministic parts of that call:

- **The console formatter** `FormatLogger` (module `Format`). It chooses one
  layout by first-match precedence: status, then message, then fault, then
  none. It renders that layout between the colour escape and the reset
  escape.
- **The per-call plan** of the seven entry points `Simple`, `Status`,
  `Message`, `Error`, `Fatal`, `Panic` and `Complete` (module `Facade`). A
  call becomes a `Plan` value holding three things:
  - the record the call builds;
  - the strings it hands to Go's `log` package, in order;
  - how the process goes on afterwards: `Continue`, `Exit` (`log.Fatal`,
    `log.Fatalf`) or `Panic` (`log.Panic`).

The file step is abstract. It is an input `SaveResult`: either `Saved`, or
`Failed` at one of the steps `Getwd`, `Glob`, `Open`, `Marshal`, `Write`,
`Close`, together with the text of the error. The caller's file, line and
timestamp are opaque input strings (`Caller`). So is the rendered fault text.

Module `Colors` holds the ANSI colour variables, fixed here at their
initial values. `Reset` is `ESC [0m`, and the bright colours are
`ESC [3d;1m` for d = 0..7.

The formatter also gets a reference description that does not follow the
formatter's branches. A block is a list of labelled fields:

    Render(color, fields) = color + one "\n| Name: value" line per field + "\n" + Reset

The fields shown are filename, line and timestamp, followed by the first
non-empty field among status, message and fault (`FirstNonEmpty`).
`FormatIsRender` proves that the formatter equals this description on every
input. One consequence is that an output renders at most one of the status,
message and fault fields. This is about fields, not text lines: a value that
itself contains a newline and a `| Message: ` label still prints as more
lines.

In four places the code behaves differently from what its names or its
layout suggest. The model follows the code:

- The `Fatal` and `Panic` entry points print with `log.Print`
  (logger.go:336, logger.go:361). They do not end the process, although
  their names suggest they should. A failed save ends every entry point.
  Once the record is saved, only the status value `"fatal"` or `"panic"`
  passed to `Status` or `Complete` ends the process.
- The switch knows `"success"`, `"info"`, `"error"`, `"fatal"` and `"panic"`,
  compared exactly. There is no `"warning"` case. `"info"` maps to bright
  blue, and the default colour is bright cyan.
- The combined branch (logger.go:158) is unreachable. It is kept in
  `FormatLogger` as written, and `SelectLayout` proves it is never chosen.
- On a save failure, `SaveLogger` and `FindLogger` already call
  `log.Fatalf`, which exits the process. So the entry points' own message
  "Unable to save logger to log file" is never printed. The model prints the
  message of the step that failed and ends with `Exit`.

## Model

| member | source | states |
|---|---|---|
| Colors.BrightsAreSgr | logger.go:17-27 | the eight bright colours, at their initial values, are the SGR sequences `ESC [3d;1m` for d = 0..7; distinct codes give distinct sequences, so the colours are pairwise distinct and different from Reset |
| Format.SelectLayout | logger.go:138-158 | the layout is StatusOnly exactly when status is non-empty, MessageOnly exactly when only message leads, FaultOnly exactly when only fault is non-empty, Bare exactly when all three are empty; the Combined branch is never chosen |
| Format.FormatLogger | logger.go:137-160 | every output starts with the colour, then the Filename, Line and Timestamp lines, and ends with a newline and Reset |
| Format.FirstNonEmpty | logger.go:138-151 | the reference choice yields at most one field; it is empty exactly when every value is empty, otherwise it is a non-empty field all of whose predecessors are empty |
| Format.FormatIsRender | logger.go:137-160 | the formatter's output equals the reference rendering of filename, line, timestamp and the first non-empty of status, message and fault |
| Format.AtMostOneOptionalLine | logger.go:138-158 | every output renders the base fields plus at most one optional field, which is one of the record's own and has a non-empty value |
| Format.StatusBlock | logger.go:138-141 | with a non-empty status the output is exactly the status block, whatever message and fault hold |
| Format.MessageBlock | logger.go:143-146 | with no status and a non-empty message only the Message line is shown, whatever the fault holds |
| Format.FaultBlock | logger.go:148-151 | with no status or message and a non-empty fault only the Fault line is shown |
| Format.BareBlock | logger.go:153-156 | with all three empty only Filename, Line and Timestamp are shown |
| Facade.BuildRecord | logger.go:170-177 | the record carries the caller's filename, line and timestamp |
| Facade.FillsOwnFields | logger.go:170-354 | each entry point fills only the fields it takes (Simple none, Status the status, Message the message, Error/Fatal/Panic the fault, Complete all three) and the rest stay empty |
| Facade.PlanCall | logger.go:179-362 | the plan records the built record; a failed save prints only that step's message and exits; after a save one string is printed, or two for Error, whose first is the raw fault text |
| Facade.StatusSwitch | logger.go:184-197 | the switch follows its table by exact, case-sensitive comparison: the colour is always one of the bright ones, any status outside the table gets bright cyan and continues, and only "fatal" or "panic" can end the process |
| Facade.SaveFailureMessage | logger.go:83-129 | each failing save step prints its own "Unable to …" message, which ends with the rendered error |
| Facade.SaveMessagesIdentifyStep | logger.go:83-129 | messages from two different save steps always differ, whatever the error texts, so the message names the step that failed (logger.go:83, 90, 111, 117, 123, 129) |
| Facade.StatusColors | logger.go:184-197 | each colour is selected for exactly one status by case-sensitive comparison, and bright cyan exactly for every unrecognised status |
| Facade.StatusOutcomes | logger.go:191-196 | the switch exits exactly on "fatal", panics exactly on "panic" and continues otherwise |
| Facade.StatusCaseSensitive | logger.go:184-197 | "Success", "FATAL" and "" get bright cyan and continue (a corollary of StatusColors and StatusOutcomes) |
| Facade.PlanOutcome | logger.go:179-362 | a call exits exactly when the save fails or Status/Complete get "fatal", and panics exactly when the save succeeds and Status/Complete get "panic" |
| Facade.FaultEntries | logger.go:305-361 | after a save, Error prints the raw fault and then a bright yellow block, Fatal a bright magenta block and Panic a bright red one; all three continue, and a non-empty fault appears as the Fault line |
| Facade.DefaultColorEntries | logger.go:217-285 | Simple and Message print one bright cyan block and continue; Simple's block has only the base fields, and Message's shows the message when it is non-empty |
| Facade.StatusEntries | logger.go:242-260 | Status and Complete print one block in the colour the status table selects, end as the table says, and show a non-empty status |
| Facade.StatusMatchesComplete | logger.go:184-197 | Status(s) and Complete(s, m, f) end the same way, and for a non-empty s they print the same block, because the status masks message and fault |

## Left out

- File discovery, creation and writing (`StartLogger`, `FindLogger`, `SaveLogger`, logger.go:56-134). They are filesystem I/O. The model replaces them with the input `SaveResult` and models only the message each failing step prints before `log.Fatalf` exits.
- Which bytes reach the file, and whether a failed write left a partial record. The save step is abstract.
- The JSON encoding by `json.MarshalIndent` and the struct tags (logger.go:29-53). It is library output, and the model does not reproduce its bytes.
- `runtime.Caller`, `strconv.Itoa` and `time.Now().Format(time.RFC3339)`. These are runtime and library calls. Their results are the opaque strings of `Caller`.
- `fmt.Sprint(fault)`, including how Go renders a nil error. The fault is its rendered text, given as input.
- `log.SetFlags` (logger.go:165 and the same line in each entry point). It mutates global state, and only its effect on the prefix would matter. The newline `log` appends and the process exit or panic themselves are also left out. The model keeps only the strings handed to `log` and the `Outcome` tag.
- The colour variables are fixed at their initial values. In Go, `Reset` and the `Bright*` colours are exported package variables (logger.go:17-27), and `FormatLogger` and the entry points read them on every call. A client that reassigns one changes what is printed, and the model does not capture this.
- Strings are character sequences, not byte strings. Go strings may hold invalid UTF-8, and such a filename, message or fault cannot be an input here. Emptiness tests and exact comparison with the ASCII status names agree on valid UTF-8.
- Nil sub-records. Every constructor sets all three, so the record holds plain strings and a nil dereference in `FormatLogger` cannot be expressed.
- Concurrent appends to the shared log file. The source has no coordination, and concurrency is not modelled.
- logger_test.go is not part of this model. It only exercises the filesystem round trip.
