// The library's exceptions: the stack trace captured when one is built
// (each frame's symbol demangled where possible), `YangError::what`, and
// `YangDataError::what`, which formats the libyang error item's fields into
// sections and caches the text on its first call. `backtrace`,
// `backtrace_symbols`, `abi::__cxa_demangle` and libyang's last log message
// are parameters.
module Exceptions {
  import opened Wrappers
  import opened Text
  import opened Numeric

  // ---------------------------------------------------------------------
  // Demangling one frame

  /** `std::string::find(c, from)`: the first index at or after `from`
      holding `c`, or none. */
  function FindFrom(s: string, c: char, from: nat): (r: Option<nat>)
    ensures r.Some? ==> from <= r.value < |s| && s[r.value] == c
    ensures r.Some? ==> forall j :: from <= j < r.value ==> s[j] != c
    ensures r.None? ==> forall j :: from <= j < |s| ==> s[j] != c
  {
    if from >= |s| then None
    else match Find(s[from..], c)
      case None => None
      case Some(i) => Some(from + i)
  }

  /** Where a frame's mangled name lies: after its first '(' and before the
      first '+' that follows, provided that stretch is not empty. */
  function MangledSpan(sym: string): (r: Option<(nat, nat)>)
    ensures r.Some? ==>
              && 0 < r.value.0 < r.value.1 < |sym|
              && sym[r.value.0 - 1] == '(' && sym[r.value.1] == '+'
              && (forall j :: 0 <= j < r.value.0 - 1 ==> sym[j] != '(')
              && (forall j :: r.value.0 - 1 <= j < r.value.1 ==> sym[j] != '+')
    ensures r.None? <==>
              || Find(sym, '(').None?
              || FindFrom(sym, '+', Find(sym, '(').value).None?
              || FindFrom(sym, '+', Find(sym, '(').value).value == Find(sym, '(').value + 1
  {
    var begin := Find(sym, '(');
    var plus := FindFrom(sym, '+', if begin.None? then 0 else begin.value);
    if begin.Some? && plus.Some? && plus.value > begin.value + 1 then Some((begin.value + 1, plus.value))
    else None
  }

  /** A frame's text with its mangled name replaced by what `demangle`
      gives for it, when it gives something (`__cxa_demangle` succeeding). */
  function DemangleFrame(sym: string, demangle: string -> Option<string>): string
  {
    match MangledSpan(sym)
    case None => sym
    case Some((b, e)) =>
      match demangle(sym[b..e])
      case None => sym
      case Some(d) => sym[..b] + d + sym[e..]
  }

  /** Demangling changes only the name: the text up to and including '(',
      and from '+' on, is kept, and the demangled name sits between them. */
  lemma DemangleFrameParts(sym: string, demangle: string -> Option<string>)
    requires MangledSpan(sym).Some?
    requires demangle(sym[MangledSpan(sym).value.0..MangledSpan(sym).value.1]).Some?
    ensures var (b, e) := MangledSpan(sym).value;
            var d := demangle(sym[b..e]).value;
            var r := DemangleFrame(sym, demangle);
            && |r| == |sym| - (e - b) + |d|
            && r[..b] == sym[..b]
            && r[b..b + |d|] == d
            && r[b + |d|..] == sym[e..]
  {
    var (b, e) := MangledSpan(sym).value;
    var d := demangle(sym[b..e]).value;
    var r := sym[..b] + d + sym[e..];
    assert r[..b] == sym[..b];
    assert r[b..b + |d|] == d;
    assert r[b + |d|..] == sym[e..];
  }

  /** A frame with no '(', or none followed by a named symbol and '+', or
      whose name does not demangle, is kept as it is; so is one whose name
      demangles to itself. */
  lemma DemangleFrameUnchanged(sym: string, demangle: string -> Option<string>)
    requires || MangledSpan(sym).None?
             || demangle(sym[MangledSpan(sym).value.0..MangledSpan(sym).value.1]).None?
             || demangle(sym[MangledSpan(sym).value.0..MangledSpan(sym).value.1])
                == Some(sym[MangledSpan(sym).value.0..MangledSpan(sym).value.1])
    ensures DemangleFrame(sym, demangle) == sym
  {
    match MangledSpan(sym)
    case None =>
    case Some((b, e)) =>
      if demangle(sym[b..e]).Some? {
        assert sym[..b] + sym[b..e] + sym[e..] == sym;
      }
  }

  // ---------------------------------------------------------------------
  // The captured trace

  /** Strings, each ended by a newline. */
  function Lines(ls: seq<string>): string
  {
    if ls == [] then "" else Lines(ls[..|ls| - 1]) + ls[|ls| - 1] + "\n"
  }

  lemma {:induction false} LinesAppend(a: seq<string>, b: seq<string>)
    ensures Lines(a + b) == Lines(a) + Lines(b)
    decreases |b|
  {
    if b == [] {
      assert a + b == a;
    } else {
      var ab, init, last := a + b, b[..|b| - 1], b[|b| - 1];
      assert ab[..|ab| - 1] == a + init;
      assert ab[|ab| - 1] == last;
      LinesAppend(a, init);
      calc {
        Lines(ab);
        Lines(a + init) + last + "\n";
        Lines(a) + Lines(init) + last + "\n";
        Lines(a) + (Lines(init) + last + "\n");
      }
    }
  }

  function Demangled(syms: seq<string>, demangle: string -> Option<string>): (r: seq<string>)
    ensures |r| == |syms|
    ensures forall k :: 0 <= k < |syms| ==> r[k] == DemangleFrame(syms[k], demangle)
  {
    seq(|syms|, k requires 0 <= k < |syms| => DemangleFrame(syms[k], demangle))
  }

  /** The frames' texts, each demangled and on a line of its own. */
  function TraceText(syms: seq<string>, demangle: string -> Option<string>): string
  {
    Lines(Demangled(syms, demangle))
  }

  /** The trace of a split stack is the two traces one after the other. */
  lemma TraceTextAppend(a: seq<string>, b: seq<string>, demangle: string -> Option<string>)
    ensures TraceText(a + b, demangle) == TraceText(a, demangle) + TraceText(b, demangle)
  {
    assert Demangled(a + b, demangle) == Demangled(a, demangle) + Demangled(b, demangle);
    LinesAppend(Demangled(a, demangle), Demangled(b, demangle));
  }

  /** Frames with nothing to demangle appear verbatim, one per line. */
  lemma TraceTextVerbatim(syms: seq<string>, demangle: string -> Option<string>)
    requires forall k :: 0 <= k < |syms| ==> MangledSpan(syms[k]).None?
    ensures TraceText(syms, demangle) == Lines(syms)
  {
    forall k | 0 <= k < |syms|
      ensures DemangleFrame(syms[k], demangle) == syms[k]
    {
      DemangleFrameUnchanged(syms[k], demangle);
    }
    assert Demangled(syms, demangle) == syms;
  }

  /** The trace `captureStackTrace(maxFrames)` returns for a call stack
      whose frames' texts are `stack` (innermost first): nothing when
      `backtrace` reports no frame or `backtrace_symbols` fails
      (`symbolsOk` false), else the first `maxFrames` frames. */
  function CapturedTrace(stack: seq<string>, maxFrames: nat, symbolsOk: bool,
                         demangle: string -> Option<string>): (r: string)
    ensures stack == [] || maxFrames == 0 || !symbolsOk ==> r == ""
  {
    var n := if |stack| < maxFrames then |stack| else maxFrames;
    if n == 0 || !symbolsOk then "" else TraceText(stack[..n], demangle)
  }

  /** `captureStackTrace`. */
  method CaptureStackTrace(stack: seq<string>, maxFrames: nat, symbolsOk: bool,
                           demangle: string -> Option<string>)
    returns (out: string)
    ensures out == CapturedTrace(stack, maxFrames, symbolsOk, demangle)
  {
    out := "";
    var n := if |stack| < maxFrames then |stack| else maxFrames;
    if n == 0 || !symbolsOk {
      return;
    }
    var frames := stack[..n];
    var i := 0;
    while i < n
      invariant 0 <= i <= n
      invariant out == Lines(Demangled(frames[..i], demangle))
    {
      ghost var ls := Demangled(frames[..i + 1], demangle);
      assert ls[..i] == Demangled(frames[..i], demangle);
      out := out + DemangleFrame(frames[i], demangle) + "\n";
      i := i + 1;
    }
    assert frames[..i] == frames;
  }

  /** The default depth of a captured trace. */
  const MAX_FRAMES: nat := 64

  // ---------------------------------------------------------------------
  // YangError

  const NO_CTX_PREFIX: string := "[No YANG ctx Available]: "
  const TRACE_HEADING: string := "\nStack trace:\n"

  /** `YangError::what`: the fixed prefix, libyang's last log message at the
      time of the call, and the trace captured at construction. */
  function ErrorWhat(lastMsg: string, trace: string): string
  {
    NO_CTX_PREFIX + lastMsg + TRACE_HEADING + trace
  }

  /** `YangError`: the trace is captured when the error is built. */
  class YangError {
    const trace: string

    constructor(stack: seq<string>, symbolsOk: bool, demangle: string -> Option<string>)
      ensures trace == CapturedTrace(stack, MAX_FRAMES, symbolsOk, demangle)
    {
      var t := CaptureStackTrace(stack, MAX_FRAMES, symbolsOk, demangle);
      trace := t;
    }
  }

  // ---------------------------------------------------------------------
  // YangDataError

  /** The libyang error item a `YangDataError` holds (`ly_err_last` of the
      context); its string fields may be missing. */
  datatype ErrItem = ErrItem(
    msg: Option<string>,
    dataPath: Option<string>,
    schemaPath: Option<string>,
    line: uint64,
    apptag: Option<string>)

  /** `static_cast<int>` of an unsigned 64-bit value: the low 32 bits, read
      in two's complement. */
  function Int32Of(u: uint64): (r: int)
    ensures -TWO_TO_THE_31 <= r < TWO_TO_THE_31
    ensures (r - u as int) % TWO_TO_THE_32 == 0
    ensures (u as int) < TWO_TO_THE_31 ==> r == u as int
  {
    var w := (u as int) % TWO_TO_THE_32;
    if w >= TWO_TO_THE_31 then w - TWO_TO_THE_32 else w
  }

  /** What the accessors of a `YangDataError` return. */
  datatype Details = Details(
    moduleName: string,
    error: string,
    dataPath: string,
    schemaPath: string,
    line: int,
    appTag: string,
    expr: string)

  /** The accessors: each field of the error item when it is there, else
      the base class's answer (libyang's last log message for the error,
      -1 for the line, empty otherwise); the module name and the
      expression are always empty. */
  function DataDetails(item: Option<ErrItem>, lastMsg: string): (d: Details)
    ensures d.moduleName == "" && d.expr == ""
    ensures item.None? ==> d == Details("", lastMsg, "", "", -1, "", "")
    ensures item.Some? ==>
              && d.error == item.value.msg.GetOr(lastMsg)
              && d.dataPath == item.value.dataPath.GetOr("")
              && d.schemaPath == item.value.schemaPath.GetOr("")
              && d.line == Int32Of(item.value.line)
              && d.appTag == item.value.apptag.GetOr("")
  {
    match item
    case None => Details("", lastMsg, "", "", -1, "", "")
    case Some(e) =>
      Details("",
              if e.msg.Some? then e.msg.value else lastMsg,
              if e.dataPath.Some? then e.dataPath.value else "",
              if e.schemaPath.Some? then e.schemaPath.value else "",
              Int32Of(e.line),
              if e.apptag.Some? then e.apptag.value else "",
              "")
  }

  /** One `\nHeading: body` line of the message. */
  datatype Section = Section(heading: string, body: string)

  const DATA_PATH: string := "Data path"
  const SCHEMA_PATH: string := "Schema path"
  const LINE: string := "Line"
  const APP_TAG: string := "App tag"
  const EXPR: string := "Expr"

  function OptSection(heading: string, body: string): seq<Section>
  {
    if body == "" then [] else [Section(heading, body)]
  }

  /** The sections, in their fixed order, each present only when it has
      something to say: a non-empty string, or a non-negative line. */
  function Sections(d: Details): seq<Section>
  {
    OptSection(DATA_PATH, d.dataPath)
    + OptSection(SCHEMA_PATH, d.schemaPath)
    + (if d.line >= 0 then [Section(LINE, NatToString(d.line))] else [])
    + OptSection(APP_TAG, d.appTag)
    + OptSection(EXPR, d.expr)
  }

  function Headings(ss: seq<Section>): (r: seq<string>)
    ensures |r| == |ss|
    ensures forall k :: 0 <= k < |ss| ==> r[k] == ss[k].heading
  {
    seq(|ss|, k requires 0 <= k < |ss| => ss[k].heading)
  }

  function RenderSections(ss: seq<Section>): string
  {
    if ss == [] then ""
    else RenderSections(ss[..|ss| - 1]) + "\n" + ss[|ss| - 1].heading + ": " + ss[|ss| - 1].body
  }

  /** `YangDataError::what`'s text: the module in brackets when there is
      one, the error, the sections, then the trace. */
  function DataWhat(d: Details, trace: string): string
  {
    (if d.moduleName != "" then "[" + d.moduleName + "] " else "")
    + d.error + RenderSections(Sections(d)) + TRACE_HEADING + trace
  }

  lemma HeadingsDistinct()
    ensures DATA_PATH != SCHEMA_PATH && DATA_PATH != LINE && DATA_PATH != APP_TAG && DATA_PATH != EXPR
    ensures SCHEMA_PATH != LINE && SCHEMA_PATH != APP_TAG && SCHEMA_PATH != EXPR
    ensures LINE != APP_TAG && LINE != EXPR && APP_TAG != EXPR
  {
    assert DATA_PATH[0] != SCHEMA_PATH[0] && DATA_PATH[0] != LINE[0] && DATA_PATH[0] != APP_TAG[0]
      && DATA_PATH[0] != EXPR[0];
    assert SCHEMA_PATH[0] != LINE[0] && SCHEMA_PATH[0] != APP_TAG[0] && SCHEMA_PATH[0] != EXPR[0];
    assert LINE[0] != APP_TAG[0] && LINE[0] != EXPR[0] && APP_TAG[0] != EXPR[0];
  }

  lemma HeadingsAppend(x: seq<Section>, y: seq<Section>)
    ensures Headings(x + y) == Headings(x) + Headings(y)
  {
  }

  lemma OptSectionHeading(h: string, body: string, g: string)
    ensures g in Headings(OptSection(h, body)) <==> g == h && body != ""
  {
    assert Headings(OptSection(h, body)) == if body == "" then [] else [h];
  }

  /** Each section is there exactly when its field has something to say. */
  lemma SectionsPresent(d: Details)
    ensures DATA_PATH in Headings(Sections(d)) <==> d.dataPath != ""
    ensures SCHEMA_PATH in Headings(Sections(d)) <==> d.schemaPath != ""
    ensures LINE in Headings(Sections(d)) <==> d.line >= 0
    ensures APP_TAG in Headings(Sections(d)) <==> d.appTag != ""
    ensures EXPR in Headings(Sections(d)) <==> d.expr != ""
  {
    HeadingsDistinct();
    var a := OptSection(DATA_PATH, d.dataPath);
    var b := OptSection(SCHEMA_PATH, d.schemaPath);
    var c: seq<Section> := if d.line >= 0 then [Section(LINE, NatToString(d.line))] else [];
    var e := OptSection(APP_TAG, d.appTag);
    var f := OptSection(EXPR, d.expr);
    HeadingsAppend(a, b);
    HeadingsAppend(a + b, c);
    HeadingsAppend(a + b + c, e);
    HeadingsAppend(a + b + c + e, f);
    var hs := Headings(a) + Headings(b) + Headings(c) + Headings(e) + Headings(f);
    assert Headings(Sections(d)) == hs;
    forall g | g in [DATA_PATH, SCHEMA_PATH, LINE, APP_TAG, EXPR]
      ensures g in hs <==> g in Headings(a) || g in Headings(b) || g in Headings(c) || g in Headings(e) || g in Headings(f)
    {
    }
    OptSectionHeading(DATA_PATH, d.dataPath, DATA_PATH);
    OptSectionHeading(DATA_PATH, d.dataPath, SCHEMA_PATH);
    OptSectionHeading(DATA_PATH, d.dataPath, LINE);
    OptSectionHeading(DATA_PATH, d.dataPath, APP_TAG);
    OptSectionHeading(DATA_PATH, d.dataPath, EXPR);
    OptSectionHeading(SCHEMA_PATH, d.schemaPath, DATA_PATH);
    OptSectionHeading(SCHEMA_PATH, d.schemaPath, SCHEMA_PATH);
    OptSectionHeading(SCHEMA_PATH, d.schemaPath, LINE);
    OptSectionHeading(SCHEMA_PATH, d.schemaPath, APP_TAG);
    OptSectionHeading(SCHEMA_PATH, d.schemaPath, EXPR);
    OptSectionHeading(APP_TAG, d.appTag, DATA_PATH);
    OptSectionHeading(APP_TAG, d.appTag, SCHEMA_PATH);
    OptSectionHeading(APP_TAG, d.appTag, LINE);
    OptSectionHeading(APP_TAG, d.appTag, APP_TAG);
    OptSectionHeading(APP_TAG, d.appTag, EXPR);
    OptSectionHeading(EXPR, d.expr, DATA_PATH);
    OptSectionHeading(EXPR, d.expr, SCHEMA_PATH);
    OptSectionHeading(EXPR, d.expr, LINE);
    OptSectionHeading(EXPR, d.expr, APP_TAG);
    OptSectionHeading(EXPR, d.expr, EXPR);
    assert Headings(c) == if d.line >= 0 then [LINE] else [];
  }

  /** A `Line` section shows the line's digits. */
  lemma LineSectionText(d: Details)
    requires d.line >= 0
    ensures Section(LINE, NatToString(d.line)) in Sections(d)
  {
  }

  /** A `YangDataError` never shows a module prefix or an `Expr` section:
      its text starts with the error and, of the sections, has exactly
      those whose item fields are present and non-empty (and `Line`
      whenever there is an item whose line fits in 31 bits). */
  lemma DataErrorSections(item: Option<ErrItem>, lastMsg: string, trace: string)
    ensures var d := DataDetails(item, lastMsg);
            && DataWhat(d, trace) == d.error + RenderSections(Sections(d)) + TRACE_HEADING + trace
            && EXPR !in Headings(Sections(d))
            && (DATA_PATH in Headings(Sections(d)) <==> item.Some? && item.value.dataPath.Some? && item.value.dataPath.value != "")
            && (SCHEMA_PATH in Headings(Sections(d)) <==> item.Some? && item.value.schemaPath.Some? && item.value.schemaPath.value != "")
            && (APP_TAG in Headings(Sections(d)) <==> item.Some? && item.value.apptag.Some? && item.value.apptag.value != "")
            && (LINE in Headings(Sections(d)) <==> item.Some? && Int32Of(item.value.line) >= 0)
            && (item.Some? && (item.value.line as int) < TWO_TO_THE_31 ==> LINE in Headings(Sections(d)))
  {
    SectionsPresent(DataDetails(item, lastMsg));
  }

  /** A line in [2^31, 2^32) wraps to a negative `int`, and the `Line`
      section disappears. */
  lemma LargeLineHidden(item: ErrItem, lastMsg: string)
    requires TWO_TO_THE_31 <= item.line as int < TWO_TO_THE_32
    ensures LINE !in Headings(Sections(DataDetails(Some(item), lastMsg)))
  {
    SectionsPresent(DataDetails(Some(item), lastMsg));
  }

  /** With no error item, the text is the last log message and the trace:
      exactly `YangError::what` without its prefix. */
  lemma NoItemWhat(lastMsg: string, trace: string)
    ensures DataWhat(DataDetails(None, lastMsg), trace) == lastMsg + TRACE_HEADING + trace
    ensures ErrorWhat(lastMsg, trace) == NO_CTX_PREFIX + DataWhat(DataDetails(None, lastMsg), trace)
  {
    var d := DataDetails(None, lastMsg);
    SectionsPresent(d);
    assert Sections(d) == [];
  }

  /** The text is never empty, so a cached text is never rebuilt. */
  lemma DataWhatNonEmpty(d: Details, trace: string)
    ensures DataWhat(d, trace) != ""
  {
    var w := DataWhat(d, trace);
    var rest := RenderSections(Sections(d)) + TRACE_HEADING + trace;
    assert |TRACE_HEADING| > 0;
    assert |w| >= |TRACE_HEADING|;
  }

  /** `YangDataError`: the error item taken from the context when the error
      is built, the trace, and the cached text. */
  class YangDataError {
    const item: Option<ErrItem>
    const trace: string
    var whatBuf: string
    /** The last log message at the call that filled the cache. */
    ghost var cachedFor: string

    ghost predicate Valid()
      reads this
    {
      whatBuf != "" ==> whatBuf == DataWhat(DataDetails(item, cachedFor), trace)
    }

    constructor(item: Option<ErrItem>, stack: seq<string>, symbolsOk: bool, demangle: string -> Option<string>)
      ensures Valid()
      ensures this.item == item && trace == CapturedTrace(stack, MAX_FRAMES, symbolsOk, demangle)
      ensures whatBuf == ""
    {
      var t := CaptureStackTrace(stack, MAX_FRAMES, symbolsOk, demangle);
      this.item := item;
      trace := t;
      whatBuf := "";
    }

    /** `what()`: built from the accessors on the first call (with the last
        log message of that moment) and returned unchanged ever after. */
    method What(lastMsg: string) returns (r: string)
      requires Valid()
      modifies this
      ensures Valid()
      ensures old(whatBuf) != "" ==> r == old(whatBuf) && whatBuf == old(whatBuf) && cachedFor == old(cachedFor)
      ensures old(whatBuf) == "" ==> r == DataWhat(DataDetails(item, lastMsg), trace) && whatBuf == r && cachedFor == lastMsg
      ensures r == whatBuf && r == DataWhat(DataDetails(item, cachedFor), trace)
    {
      if whatBuf == "" {
        whatBuf := DataWhat(DataDetails(item, lastMsg), trace);
        cachedFor := lastMsg;
        DataWhatNonEmpty(DataDetails(item, lastMsg), trace);
      }
      r := whatBuf;
    }
  }
}
