/**
 * The logger: two append-only lists of floor numbers (the cabin-button
 * presses and the floors visited), getters that hand out copies, and the
 * formatting of both lists into the lines of the text report.
 */
module ElevatorLoggers {
  import opened Enums
  import opened Commands

  datatype Option<T> = None | Some(value: T)

  /** First line of the report, before the cabin-button floors. */
  function CommandsHeader(): string
  {
    "Comandos do painel interno:\n"
  }

  /** Line between the cabin-button floors and the visited floors. */
  function VisitedHeader(): string
  {
    "\n\n\nPavimentos visitados em ordem:\n"
  }

  // ---------------------------------------------------------------------
  // Decimal text of an integer, as `int.ToString()` writes it, and the
  // reading back of that text.

  predicate IsDigit(c: char)
  {
    '0' <= c <= '9'
  }

  predicate AllDigits(s: string)
  {
    forall i :: 0 <= i < |s| ==> IsDigit(s[i])
  }

  /** The character of a decimal digit. */
  function DigitChar(d: int): (c: char)
    requires 0 <= d < 10
    ensures IsDigit(c) && c as int - '0' as int == d
  {
    ('0' as int + d) as char
  }

  /** Decimal digits of `n`, most significant first, with no leading zero. */
  function NatToString(n: nat): (s: string)
    ensures |s| > 0 && AllDigits(s)
    ensures s[0] == '0' ==> n == 0
  {
    if n < 10 then [DigitChar(n)]
    else NatToString(n / 10) + [DigitChar(n % 10)]
  }

  /** `n.ToString()`: a minus sign before the digits of a negative number. */
  function IntToString(n: int): (s: string)
    ensures |s| > 0
    ensures n < 0 <==> s[0] == '-'
  {
    if n < 0 then "-" + NatToString(-n) else NatToString(n)
  }

  /** Text that `IntToString` can produce: optional minus, then digits. */
  predicate IsIntText(s: string)
  {
    if |s| > 0 && s[0] == '-' then |s| > 1 && AllDigits(s[1..])
    else |s| > 0 && AllDigits(s)
  }

  function ParseNat(s: string): nat
    requires |s| > 0 && AllDigits(s)
  {
    var d := s[|s| - 1] as int - '0' as int;
    if |s| == 1 then d else 10 * ParseNat(s[..|s| - 1]) + d
  }

  function ParseInt(s: string): int
    requires IsIntText(s)
  {
    if s[0] == '-' then -(ParseNat(s[1..]) as int) else ParseNat(s)
  }

  /** Reading back the digits of a natural number gives the number. */
  lemma {:induction false} NatTextRoundTrip(n: nat)
    ensures ParseNat(NatToString(n)) == n
  {
    if n >= 10 {
      var s, prefix := NatToString(n), NatToString(n / 10);
      assert s == prefix + [DigitChar(n % 10)];
      assert s[..|s| - 1] == prefix;
      NatTextRoundTrip(n / 10);
    }
  }

  /** Reading back the text of any integer gives the integer. */
  lemma IntTextRoundTrip(n: int)
    ensures IsIntText(IntToString(n))
    ensures ParseInt(IntToString(n)) == n
  {
    var s := IntToString(n);
    if n < 0 {
      assert s[1..] == NatToString(-n);
      NatTextRoundTrip(-n);
    } else {
      assert IsDigit(s[0]);
      NatTextRoundTrip(n);
    }
  }

  // ---------------------------------------------------------------------
  // The report lines.

  /** One logged floor in the report: a tab, then the number. */
  function TabbedLine(x: int): string
  {
    "\t" + IntToString(x)
  }

  /** One tabbed line per number, in order. */
  function TabbedLines(xs: seq<int>): (lines: seq<string>)
    ensures |lines| == |xs|
  {
    if xs == [] then [] else [TabbedLine(xs[0])] + TabbedLines(xs[1..])
  }

  lemma {:induction false} TabbedLinesAt(xs: seq<int>, k: int)
    requires 0 <= k < |xs|
    ensures TabbedLines(xs)[k] == TabbedLine(xs[k])
  {
    assert TabbedLines(xs) == [TabbedLine(xs[0])] + TabbedLines(xs[1..]);
    if k > 0 {
      TabbedLinesAt(xs[1..], k - 1);
    }
  }

  /** Formatting one more number adds its line at the end. */
  lemma TabbedLinesSnoc(before: seq<string>, xs: seq<int>, i: int)
    requires 0 <= i < |xs|
    ensures before + TabbedLines(xs[..i]) + [TabbedLine(xs[i])] == before + TabbedLines(xs[..i + 1])
  {
    assert xs[..i + 1] == xs[..i] + [xs[i]];
    TabbedLinesAppend(xs[..i], [xs[i]]);
  }

  /** Formatting a concatenation formats each part. */
  lemma {:induction false} TabbedLinesAppend(xs: seq<int>, ys: seq<int>)
    ensures TabbedLines(xs + ys) == TabbedLines(xs) + TabbedLines(ys)
  {
    if xs == [] {
      assert xs + ys == ys;
    } else {
      assert (xs + ys)[0] == xs[0];
      assert (xs + ys)[1..] == xs[1..] + ys;
      TabbedLinesAppend(xs[1..], ys);
    }
  }

  /** The report: the cabin-button header, one tabbed line per cabin-button
      floor, the visited-floors header, one tabbed line per visited floor. */
  function TxtLines(commandFloors: seq<int>, visitedFloors: seq<int>): (lines: seq<string>)
    ensures |lines| == 2 + |commandFloors| + |visitedFloors|
    ensures lines[0] == CommandsHeader() && lines[1 + |commandFloors|] == VisitedHeader()
  {
    [CommandsHeader()] + TabbedLines(commandFloors) + [VisitedHeader()] + TabbedLines(visitedFloors)
  }

  /** Where each logged floor sits in the report: the k-th cabin-button
      floor on line 1 + k, the k-th visited floor after the second header. */
  lemma TxtLinesLayout(commandFloors: seq<int>, visitedFloors: seq<int>)
    ensures forall k :: 0 <= k < |commandFloors| ==>
              TxtLines(commandFloors, visitedFloors)[1 + k] == TabbedLine(commandFloors[k])
    ensures forall k :: 0 <= k < |visitedFloors| ==>
              TxtLines(commandFloors, visitedFloors)[2 + |commandFloors| + k] == TabbedLine(visitedFloors[k])
  {
    forall k | 0 <= k < |commandFloors|
      ensures TxtLines(commandFloors, visitedFloors)[1 + k] == TabbedLine(commandFloors[k])
    {
      TabbedLinesAt(commandFloors, k);
    }
    forall k | 0 <= k < |visitedFloors|
      ensures TxtLines(commandFloors, visitedFloors)[2 + |commandFloors| + k] == TabbedLine(visitedFloors[k])
    {
      TabbedLinesAt(visitedFloors, k);
    }
  }

  /** The number on a tabbed report line, or None for any other line. */
  function ParseLine(line: string): Option<int>
  {
    if |line| > 0 && line[0] == '\t' && IsIntText(line[1..]) then Some(ParseInt(line[1..]))
    else None
  }

  /** Reads the leading run of tabbed lines; returns their numbers and the
      lines after the run. */
  function ParseTabbed(lines: seq<string>): (r: (seq<int>, seq<string>))
    ensures |r.1| <= |lines|
  {
    if lines == [] then ([], lines)
    else
      match ParseLine(lines[0])
      case None => ([], lines)
      case Some(x) =>
        var (values, rest) := ParseTabbed(lines[1..]);
        ([x] + values, rest)
  }

  /** Reads a report back into its two lists, or None if it is not one. */
  function ParseTxt(lines: seq<string>): Option<(seq<int>, seq<int>)>
  {
    if |lines| == 0 || lines[0] != CommandsHeader() then None
    else
      var (commandFloors, rest) := ParseTabbed(lines[1..]);
      if |rest| == 0 || rest[0] != VisitedHeader() then None
      else
        var (visitedFloors, tail) := ParseTabbed(rest[1..]);
        if tail != [] then None else Some((commandFloors, visitedFloors))
  }

  /** A tabbed line reads back as its number. */
  lemma TabbedLineRoundTrip(x: int)
    ensures ParseLine(TabbedLine(x)) == Some(x)
  {
    IntTextRoundTrip(x);
    assert TabbedLine(x)[1..] == IntToString(x);
  }

  /** A run of lines that each read back as the matching number, followed
      by a line that does not, reads back as those numbers and the rest. */
  lemma {:induction false} ParseRun(lines: seq<string>, xs: seq<int>, tail: seq<string>)
    requires |lines| == |xs|
    requires forall i :: 0 <= i < |lines| ==> ParseLine(lines[i]) == Some(xs[i])
    requires tail == [] || ParseLine(tail[0]).None?
    ensures ParseTabbed(lines + tail) == (xs, tail)
  {
    var all := lines + tail;
    if lines == [] {
      assert all == tail;
    } else {
      assert all[0] == lines[0];
      assert all[1..] == lines[1..] + tail;
      ParseRun(lines[1..], xs[1..], tail);
      assert [xs[0]] + xs[1..] == xs;
    }
  }

  /** Each tabbed line of `xs` reads back as the matching number. */
  lemma TabbedLinesParse(xs: seq<int>)
    ensures forall i :: 0 <= i < |xs| ==> ParseLine(TabbedLines(xs)[i]) == Some(xs[i])
  {
    forall i | 0 <= i < |xs|
      ensures ParseLine(TabbedLines(xs)[i]) == Some(xs[i])
    {
      TabbedLinesAt(xs, i);
      TabbedLineRoundTrip(xs[i]);
    }
  }

  /** Neither header can be mistaken for a tabbed line. */
  lemma HeadersAreNotTabbed()
    ensures ParseLine(CommandsHeader()).None?
    ensures ParseLine(VisitedHeader()).None?
  {
  }

  /** A report whose two runs of lines read back as `pressed` and `visited`
      reads back as that pair. */
  lemma ParseReport(pressedLines: seq<string>, visitedLines: seq<string>,
                    pressed: seq<int>, visited: seq<int>)
    requires |pressedLines| == |pressed| && |visitedLines| == |visited|
    requires forall i :: 0 <= i < |pressed| ==> ParseLine(pressedLines[i]) == Some(pressed[i])
    requires forall i :: 0 <= i < |visited| ==> ParseLine(visitedLines[i]) == Some(visited[i])
    requires ParseLine(VisitedHeader()).None?
    ensures ParseTxt([CommandsHeader()] + pressedLines + [VisitedHeader()] + visitedLines) ==
              Some((pressed, visited))
  {
    var lines := [CommandsHeader()] + pressedLines + [VisitedHeader()] + visitedLines;
    var rest := [VisitedHeader()] + visitedLines;
    assert lines[1..] == pressedLines + rest;
    ParseRun(pressedLines, pressed, rest);
    assert rest[1..] == visitedLines + [];
    ParseRun(visitedLines, visited, []);
  }

  /** The report determines both lists: reading it back gives them. */
  lemma TxtRoundTrip(commandFloors: seq<int>, visitedFloors: seq<int>)
    ensures ParseTxt(TxtLines(commandFloors, visitedFloors)) == Some((commandFloors, visitedFloors))
  {
    TabbedLinesParse(commandFloors);
    TabbedLinesParse(visitedFloors);
    HeadersAreNotTabbed();
    ParseReport(TabbedLines(commandFloors), TabbedLines(visitedFloors), commandFloors, visitedFloors);
  }

  // ---------------------------------------------------------------------
  // The logger object.

  /** Whether `x` is the integer value of some floor. */
  predicate IsFloorValue(x: int)
  {
    0 <= x < FloorCount
  }

  class ElevatorLogger {
    /** Floors visited, in visiting order. */
    var visitedFloors: seq<int>
    /** Floors pressed on the cabin panel, in pressing order. */
    var commandFloors: seq<int>

    /** Both lists only ever hold floor values. */
    ghost predicate Valid()
      reads this
    {
      (forall i :: 0 <= i < |visitedFloors| ==> IsFloorValue(visitedFloors[i])) &&
      (forall i :: 0 <= i < |commandFloors| ==> IsFloorValue(commandFloors[i]))
    }

    constructor ()
      ensures Valid()
      ensures visitedFloors == [] && commandFloors == []
    {
      visitedFloors := [];
      commandFloors := [];
    }

    /** Records the floor of a command; the command's type is not looked at. */
    method LogInternalCommand(command: Command)
      requires Valid()
      modifies this
      ensures Valid()
      ensures commandFloors == old(commandFloors) + [FloorValue(command.floor)]
      ensures visitedFloors == old(visitedFloors)
    {
      var floor := FloorValue(command.floor);
      commandFloors := commandFloors + [floor];
    }

    method LogVisitedFloor(floor: Floor)
      requires Valid()
      modifies this
      ensures Valid()
      ensures visitedFloors == old(visitedFloors) + [FloorValue(floor)]
      ensures commandFloors == old(commandFloors)
    {
      visitedFloors := visitedFloors + [FloorValue(floor)];
    }

    /** A new list with the visited floors; the caller may change it
        without affecting the logger. */
    method VisitedFloors() returns (copy: array<int>)
      ensures fresh(copy)
      ensures copy[..] == visitedFloors
    {
      var floors := visitedFloors;
      copy := new int[|floors|](i requires 0 <= i < |floors| => floors[i]);
    }

    /** A new list with the cabin-button floors. */
    method CommandFloors() returns (copy: array<int>)
      ensures fresh(copy)
      ensures copy[..] == commandFloors
    {
      var floors := commandFloors;
      copy := new int[|floors|](i requires 0 <= i < |floors| => floors[i]);
    }

    /** Builds the report line by line; changes nothing. */
    method FormatTxtLines() returns (lines: seq<string>)
      ensures lines == TxtLines(commandFloors, visitedFloors)
    {
      lines := [CommandsHeader()];
      var i := 0;
      while i < |commandFloors|
        invariant 0 <= i <= |commandFloors|
        invariant lines == [CommandsHeader()] + TabbedLines(commandFloors[..i])
      {
        TabbedLinesSnoc([CommandsHeader()], commandFloors, i);
        lines := lines + [TabbedLine(commandFloors[i])];
        i := i + 1;
      }
      assert commandFloors[..i] == commandFloors;
      lines := lines + [VisitedHeader()];
      var j := 0;
      while j < |visitedFloors|
        invariant 0 <= j <= |visitedFloors|
        invariant lines == [CommandsHeader()] + TabbedLines(commandFloors) + [VisitedHeader()] +
                           TabbedLines(visitedFloors[..j])
      {
        TabbedLinesSnoc([CommandsHeader()] + TabbedLines(commandFloors) + [VisitedHeader()], visitedFloors, j);
        lines := lines + [TabbedLine(visitedFloors[j])];
        j := j + 1;
      }
      assert visitedFloors[..j] == visitedFloors;
    }
  }
}
