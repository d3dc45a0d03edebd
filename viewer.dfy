/**
 * The deterministic helpers of the terminal viewer (internal/model/model.go):
 * the bounded subagent list, the sidebar width, the task queries and the
 * two string helpers.
 */
module Viewer {
  import opened Wrappers
  import opened Types
  import Prd
  import Tracer
  import Text

  /** The viewer keeps at most this many subagent traces. */
  const MaxTraces := 50

  /**
   * The list after `updateSubagent`: the first trace with the same ID is
   * replaced; otherwise the trace is appended and only the last 50 kept.
   */
  function Upserted(traces: seq<SubagentTrace>, trace: SubagentTrace): seq<SubagentTrace> {
    match Tracer.FirstWithId(traces, trace.id)
    case Some(i) => traces[i := trace]
    case None =>
      var appended := traces + [trace];
      if |appended| > MaxTraces then appended[|appended| - MaxTraces..] else appended
  }

  /** Replacing keeps the length and every other trace. */
  lemma UpsertReplaces(traces: seq<SubagentTrace>, trace: SubagentTrace)
    requires Tracer.FirstWithId(traces, trace.id).Some?
    ensures var i := Tracer.FirstWithId(traces, trace.id).value;
      var r := Upserted(traces, trace);
      |r| == |traces| && r[i] == trace && forall j :: 0 <= j < |traces| && j != i ==> r[j] == traces[j]
  {
  }

  /** A new ID goes to the end; the traces before it are the newest of the old ones. */
  lemma UpsertAppends(traces: seq<SubagentTrace>, trace: SubagentTrace)
    requires Tracer.FirstWithId(traces, trace.id).None?
    ensures var r := Upserted(traces, trace);
      |r| == if |traces| + 1 > MaxTraces then MaxTraces else |traces| + 1
    ensures var r := Upserted(traces, trace);
      r[|r| - 1] == trace && r[..|r| - 1] == traces[|traces| - (|r| - 1)..]
  {
    var appended := traces + [trace];
    var r := Upserted(traces, trace);
    if |appended| > MaxTraces {
      assert r == appended[|appended| - MaxTraces..];
      assert r[..|r| - 1] == traces[|traces| - (|r| - 1)..];
    } else {
      assert r[..|r| - 1] == traces;
    }
  }

  /** The list never grows past the cap once it is within it. */
  lemma UpsertBounded(traces: seq<SubagentTrace>, trace: SubagentTrace)
    requires |traces| <= MaxTraces
    ensures |Upserted(traces, trace)| <= MaxTraces
  {
  }

  /** After an update, looking the ID up finds exactly the new trace. */
  lemma UpsertFindable(traces: seq<SubagentTrace>, trace: SubagentTrace)
    ensures Tracer.FirstWithId(Upserted(traces, trace), trace.id).Some?
    ensures var r := Upserted(traces, trace); r[Tracer.FirstWithId(r, trace.id).value] == trace
  {
    var r := Upserted(traces, trace);
    match Tracer.FirstWithId(traces, trace.id)
    case Some(i) =>
      assert r[i].id == trace.id;
    case None =>
      UpsertAppends(traces, trace);
      assert r[|r| - 1].id == trace.id;
      forall j | 0 <= j < |r| - 1 ensures r[j].id != trace.id {
        assert r[j] == r[..|r| - 1][j];
      }
  }

  /** The viewer state whose fields the modelled helpers read and update. */
  class Model {
    var width: int
    var tasks: seq<Prd.Task>
    var subagents: seq<SubagentTrace>

    constructor()
      ensures width == 0 && tasks == [] && subagents == []
    {
      width := 0;
      tasks := [];
      subagents := [];
    }

    /** `updateSubagent`: the search loop, then the bounded append. */
    method UpdateSubagent(trace: SubagentTrace)
      modifies this
      ensures subagents == Upserted(old(subagents), trace)
      ensures width == old(width) && tasks == old(tasks)
    {
      var i := 0;
      while i < |subagents|
        invariant 0 <= i <= |subagents|
        invariant subagents == old(subagents)
        invariant forall j :: 0 <= j < i ==> subagents[j].id != trace.id
      {
        if subagents[i].id == trace.id {
          assert Tracer.FirstWithId(subagents, trace.id) == Some(i);
          subagents := subagents[i := trace];
          return;
        }
        i := i + 1;
      }
      subagents := subagents + [trace];
      if |subagents| > MaxTraces {
        subagents := subagents[|subagents| - MaxTraces..];
      }
    }

    /** `calculateSidebarWidth`: hidden below 80 columns, then 20, then 25. */
    function CalculateSidebarWidth(): (r: int)
      reads this
      ensures r == 0 <==> width < 80
      ensures r == 25 <==> width >= 120
      ensures r in {0, 20, 25}
      ensures width >= 0 ==> 4 * r <= width
    {
      if width < 80 then 0 else if width < 120 then 20 else 25
    }

    /** `getCurrentTask`: the first incomplete task, None when all are done. */
    method GetCurrentTask() returns (current: Option<Prd.Task>)
      ensures current.None? <==> forall i :: 0 <= i < |tasks| ==> tasks[i].complete
      ensures current.Some? ==> current.value == tasks[Prd.FirstIncomplete(tasks).value]
    {
      current := Prd.GetCurrentTask(tasks);
    }

    /** `allTasksComplete`: true when no task is incomplete (so true with no tasks). */
    method AllTasksComplete() returns (done: bool)
      ensures done <==> forall i :: 0 <= i < |tasks| ==> tasks[i].complete
      ensures done <==> Prd.FirstIncomplete(tasks).None?
      ensures done <==> Prd.CompletedCount(tasks) == |tasks|
    {
      Prd.CompletedCountAll(tasks);
      var i := 0;
      while i < |tasks|
        invariant 0 <= i <= |tasks|
        invariant forall j :: 0 <= j < i ==> tasks[j].complete
      {
        if !tasks[i].complete {
          return false;
        }
        i := i + 1;
      }
      return true;
    }
  }

  /** A wider terminal never gets a narrower sidebar. */
  lemma SidebarMonotone(a: Model, b: Model)
    requires a.width <= b.width
    ensures a.CalculateSidebarWidth() <= b.CalculateSidebarWidth()
  {
  }

  /**
   * `wrapText`: the text when it fits, otherwise its first `width - 3`
   * bytes and "..." (Go slices out of range, and panics, when the text does
   * not fit and `width < 3`).
   */
  function WrapText(text: string, width: int): (r: string)
    requires width >= 3 || |text| <= width
    ensures |text| <= width ==> r == text
    ensures |text| > width ==> |r| == width && r[..width - 3] == text[..width - 3] && r[width - 3..] == "..."
  {
    if |text| <= width then text else Tracer.Truncate(text, width)
  }

  function DigitChar(d: nat): char
    requires d < 10
  {
    ('0' as int + d) as char
  }

  /** The decimal digits of n, most significant first; empty for 0. */
  function Digits(n: nat): string
    decreases n
  {
    if n == 0 then "" else Digits(n / 10) + [DigitChar(n % 10)]
  }

  function DigitValue(c: char): (d: nat)
    requires Text.IsDigit(c)
    ensures d < 10 && DigitChar(d) == c
  {
    c as int - '0' as int
  }

  predicate AllDigits(s: string) {
    forall k :: 0 <= k < |s| ==> Text.IsDigit(s[k])
  }

  /** The number a string of decimal digits denotes. */
  function Value(s: string): nat
    requires AllDigits(s)
    decreases |s|
  {
    if s == [] then 0 else 10 * Value(s[..|s| - 1]) + DigitValue(s[|s| - 1])
  }

  /** Digits(n) is made of decimal digits only. */
  lemma {:induction false} DigitsAreDigits(n: nat)
    ensures AllDigits(Digits(n))
    decreases n
  {
    if n > 0 {
      DigitsAreDigits(n / 10);
    }
  }

  /** Digits(n) of a positive n does not start with '0'. */
  lemma {:induction false} DigitsNoLeadingZero(n: nat)
    requires n > 0
    ensures |Digits(n)| > 0 && Digits(n)[0] != '0'
    decreases n
  {
    if n / 10 == 0 {
      assert Digits(n) == [DigitChar(n % 10)];
    } else {
      DigitsNoLeadingZero(n / 10);
      assert Digits(n)[0] == Digits(n / 10)[0];
    }
  }

  /** Digits(n) reads back as n. */
  lemma {:induction false} DigitsValue(n: nat)
    ensures AllDigits(Digits(n)) && Value(Digits(n)) == n
    decreases n
  {
    DigitsAreDigits(n);
    if n > 0 {
      DigitsValue(n / 10);
      var s := Digits(n);
      assert s[..|s| - 1] == Digits(n / 10);
      assert DigitValue(s[|s| - 1]) == n % 10;
    }
  }

  /** The reference meaning of `itoa`: "0" for 0, the digits for n > 0, "" for n < 0. */
  function Decimal(n: int): string {
    if n < 0 then "" else if n == 0 then "0" else Digits(n)
  }

  /** For a natural number, Decimal reads back as the number with no leading zero. */
  lemma DecimalRoundTrip(n: nat)
    ensures AllDigits(Decimal(n)) && Value(Decimal(n)) == n
    ensures |Decimal(n)| > 0 && (Decimal(n)[0] == '0' ==> Decimal(n) == "0")
  {
    if n > 0 {
      DigitsValue(n);
      DigitsNoLeadingZero(n);
    } else {
      assert Decimal(n) == "0";
      assert Decimal(n)[..0] == "";
    }
  }

  /** `itoa`: digits are prepended while n > 0; a negative n yields "". */
  method Itoa(n: int) returns (s: string)
    ensures s == Decimal(n)
  {
    if n == 0 {
      return "0";
    }
    s := "";
    var m := n;
    while m > 0
      invariant m >= 0 ==> n >= 0 && Digits(n) == Digits(m) + s
      invariant m < 0 ==> m == n && s == ""
      decreases if m > 0 then m else 0
    {
      s := [DigitChar(m % 10)] + s;
      m := m / 10;
    }
  }
}
