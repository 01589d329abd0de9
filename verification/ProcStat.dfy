/** /proc/<pid>/stat: parsing around a command name that may hold anything, and the printing it undoes. */
module ProcStat {
  import opened Common
  import opened ProcText

  datatype RunState =
    | R | S | D | Z | T
    | TracingStop
    | X | P | I
    | Unknown(code: char)

  function FromChar(c: char): RunState {
    if c == 'R' then R
    else if c == 'S' then S
    else if c == 'D' then D
    else if c == 'Z' then Z
    else if c == 'T' then T
    else if c == 't' then TracingStop
    else if c == 'X' then X
    else if c == 'P' then P
    else if c == 'I' then I
    else Unknown(c)
  }

  datatype Stat = Stat(
    pid: int, comm: string, state: RunState, ppid: int, threads: nat, vsize: nat, rssPages: nat,
    processTicks: nat, startTimeTicks: nat, lastCpu: nat)

  function SaturatingAdd(a: nat, b: nat): nat {
    if a + b <= U64_MAX then a + b else U64_MAX
  }

  /** Every state letter keeps its own state, the unknown ones the letter itself. */
  lemma StatesAreTold(a: char, b: char)
    ensures FromChar(a) == FromChar(b) ==> a == b
    ensures FromChar(a) == Unknown(a) <==> a !in "RSDZTtXPI"
    ensures FromChar('R') == R && FromChar('S') == S && FromChar('D') == D && FromChar('Z') == Z && FromChar('T') == T
    ensures FromChar('t') == TracingStop && FromChar('X') == X && FromChar('P') == P && FromChar('I') == I
  {}

  /** The ticks are the sum, as long as it has 64 bits, and the largest number otherwise. */
  lemma TicksAreTheSum(utime: nat, stime: nat)
    ensures utime + stime <= U64_MAX ==> SaturatingAdd(utime, stime) == utime + stime
    ensures SaturatingAdd(utime, stime) <= U64_MAX
    ensures utime <= U64_MAX && stime <= U64_MAX ==> utime <= SaturatingAdd(utime, stime) && stime <= SaturatingAdd(utime, stime)
    ensures utime + stime > U64_MAX ==> SaturatingAdd(utime, stime) == U64_MAX
  {}

  /** The fields behind the command name; index i is field i + 3 of proc(5). */
  function ParseFields(pid: int, comm: string, fields: seq<string>): Option<Stat> {
    if |fields| <= 36 || fields[0] == [] then None
    else
      var ppid := ParseI32(fields[1]);
      var utime := ParseUnsigned(fields[11], 10, U64_MAX);
      var stime := ParseUnsigned(fields[12], 10, U64_MAX);
      var threads := ParseUnsigned(fields[17], 10, U32_MAX);
      var startTime := ParseUnsigned(fields[19], 10, U64_MAX);
      var vsize := ParseUnsigned(fields[20], 10, U64_MAX);
      var rss := ParseUnsigned(fields[21], 10, U64_MAX);
      var lastCpu := ParseUnsigned(fields[36], 10, U32_MAX);
      if ppid.None? || utime.None? || stime.None? || threads.None? || startTime.None? || vsize.None? || rss.None? || lastCpu.None?
      then None
      else Some(Stat(pid, comm, FromChar(fields[0][0]), ppid.value, threads.value, vsize.value, rss.value,
                     SaturatingAdd(utime.value, stime.value), startTime.value, lastCpu.value))
  }

  /** parse_stat; which of its errors a bad text gets is not modelled. */
  function ParseStat(text: string): Option<Stat> {
    var content := Trim(text);
    var open := IndexOf(content, '(');
    var close := AfterLast(content, ')');
    // the two characters differ, so the last one never stands exactly where the first one does
    if open == |content| || close == 0 || close - 1 <= open then None
    else
      match ParseI32(Trim(content[..open]))
      case None => None
      case Some(pid) =>
        var behind := content[close..];
        if |behind| < 2 || behind[0] != ' ' || IsWhitespace(behind[1]) then None
        else ParseFields(pid, content[open + 1..close - 1], Tokens(Trim(behind[1..])))
  }

  // What the kernel prints

  /** A task as do_task_stat prints it: `fields` are the fields behind the state, in order. */
  datatype Task = Task(pid: nat, comm: string, state: char, fields: seq<string>)

  ghost predicate PlainField(field: string) {
    IsToken(field) && ')' !in field
  }

  ghost predicate ProperTask(task: Task) {
    && task.pid <= I32_MAX
    && PlainField([task.state])
    && forall i | 0 <= i < |task.fields| :: PlainField(task.fields[i])
  }

  function Join(fields: seq<string>): string {
    if fields == [] then [] else [' '] + fields[0] + Join(fields[1..])
  }

  /** A stat line without its line end. */
  function Line(pid: string, comm: string, tail: string): string {
    pid + [' ', '('] + comm + [')', ' '] + tail
  }

  function PrintTask(task: Task): string {
    Line(PrintDecimal(task.pid), task.comm, [task.state] + Join(task.fields)) + ['\n']
  }

  lemma {:induction false} JoinedTokens(fields: seq<string>)
    requires forall i | 0 <= i < |fields| :: PlainField(fields[i])
    ensures Tokens(Join(fields)) == fields && ')' !in Join(fields)
    ensures fields != [] ==> Join(fields)[0] == ' ' && !IsWhitespace(Join(fields)[|Join(fields)| - 1])
  {
    if fields != [] {
      var rest := Join(fields[1..]);
      JoinedTokens(fields[1..]);
      TokensOfToken(fields[0], rest);
      assert Join(fields) == [' '] + (fields[0] + rest);
      assert Join(fields)[1..] == fields[0] + rest;
      assert fields == [fields[0]] + fields[1..];
    }
  }

  /** The part behind the command name. */
  lemma TailTokens(task: Task)
    requires ProperTask(task)
    ensures var tail := [task.state] + Join(task.fields);
            && Tokens(tail) == [[task.state]] + task.fields && ')' !in tail
            && !IsWhitespace(tail[0]) && !IsWhitespace(tail[|tail| - 1]) && Trim(tail) == tail
  {
    JoinedTokens(task.fields);
    TokensOfToken([task.state], Join(task.fields));
    TrimToken([task.state] + Join(task.fields));
  }

  lemma TrimTrailing(s: string, c: char)
    requires s != [] && !IsWhitespace(s[0]) && !IsWhitespace(s[|s| - 1]) && IsWhitespace(c)
    ensures Trim(s + [c]) == s
  {
    var t := s + [c];
    assert TrimStart(t) == t;
    assert t[..|t| - 1] == s && t[|t| - 1] == c;
    assert TrimEnd(s) == s;
    assert TrimEnd(t) == TrimEnd(s);
  }

  /** Where the command name lies in a line. */
  lemma LocateComm(pid: string, comm: string, tail: string)
    requires '(' !in pid && ')' !in tail
    ensures var content := Line(pid, comm, tail);
            var open := |pid| + 1; var close := |pid| + 3 + |comm|;
            && |content| == close + 1 + |tail|
            && IndexOf(content, '(') == open && AfterLast(content, ')') == close
            && content[..open] == pid + [' ']
            && content[open + 1..close - 1] == comm
            && content[close..] == [' '] + tail
  {
    var content := Line(pid, comm, tail);
    var open := |pid| + 1;
    var close := |pid| + 3 + |comm|;
    assert content == pid + ([' ', '('] + comm + [')', ' '] + tail);
    assert content[open] == '(' && content[close - 1] == ')' && content[close] == ' ';
    assert content[close + 1..] == tail;
    forall j | close <= j < |content| ensures content[j] != ')' {
      assert j > close ==> content[j] == tail[j - close - 1];
    }
    IndexOfIs(content, '(', open);
    AfterLastIs(content, ')', close);
  }

  lemma LineIsTrimmed(pid: string, comm: string, tail: string)
    requires pid != [] && tail != [] && !IsWhitespace(pid[0]) && !IsWhitespace(tail[|tail| - 1])
    ensures Trim(Line(pid, comm, tail) + ['\n']) == Line(pid, comm, tail)
  {
    var content := Line(pid, comm, tail);
    assert content[0] == pid[0] && content[|content| - 1] == tail[|tail| - 1];
    TrimTrailing(content, '\n');
  }

  lemma Spaced(s: string)
    requires IsToken(s)
    ensures Trim(s + [' ']) == s
  {
    TrimTrailing(s, ' ');
  }

  lemma Behind(tail: string)
    requires tail != []
    ensures var behind := [' '] + tail;
            |behind| >= 2 && behind[0] == ' ' && behind[1] == tail[0] && behind[1..] == tail
  {}

  /** A line of this shape is taken apart at the parentheses. */
  lemma LineParses(pidText: string, pid: int, comm: string, tail: string)
    requires IsToken(pidText) && '(' !in pidText && ParseI32(pidText) == Some(pid)
    requires tail != [] && ')' !in tail && Trim(tail) == tail
    requires !IsWhitespace(tail[0]) && !IsWhitespace(tail[|tail| - 1])
    ensures ParseStat(Line(pidText, comm, tail) + ['\n']) == ParseFields(pid, comm, Tokens(tail))
  {
    hide Trim, IndexOf, AfterLast, ParseI32, ParseFields, Tokens, IsWhitespace, Line;
    LineIsTrimmed(pidText, comm, tail);
    LocateComm(pidText, comm, tail);
    Spaced(pidText);
    Behind(tail);
  }

  /** Parsing undoes printing for every command name, spaces, parentheses and line ends included: the pid and the
      command name are found, and the fields are read from the very tokens that were printed. */
  lemma PrintedTaskParses(task: Task)
    requires ProperTask(task)
    ensures ParseStat(PrintTask(task)) == ParseFields(task.pid, task.comm, [[task.state]] + task.fields)
  {
    hide ParseStat, ParseFields, Join, Tokens, Trim, PrintDecimal, ParseI32, Line;
    DecimalRoundTrip(task.pid, I32_MAX);
    NumberIsPlain(PrintDecimal(task.pid));
    TailTokens(task);
    LineParses(PrintDecimal(task.pid), task.pid, task.comm, [task.state] + Join(task.fields));
  }

  /** The selected fields come back with their values. */
  lemma PrintedValuesParse(
    task: Task, ppid: nat, utime: nat, stime: nat, threads: nat, startTime: nat, vsize: nat, rss: nat, lastCpu: nat)
    requires ProperTask(task) && |task.fields| >= 36
    requires ppid <= I32_MAX && threads <= U32_MAX && lastCpu <= U32_MAX
    requires utime <= U64_MAX && stime <= U64_MAX && startTime <= U64_MAX && vsize <= U64_MAX && rss <= U64_MAX
    requires task.fields[0] == PrintDecimal(ppid)
    requires task.fields[10] == PrintDecimal(utime) && task.fields[11] == PrintDecimal(stime)
    requires task.fields[16] == PrintDecimal(threads) && task.fields[18] == PrintDecimal(startTime)
    requires task.fields[19] == PrintDecimal(vsize) && task.fields[20] == PrintDecimal(rss)
    requires task.fields[35] == PrintDecimal(lastCpu)
    ensures ParseStat(PrintTask(task)) ==
              Some(Stat(task.pid, task.comm, FromChar(task.state), ppid, threads, vsize, rss,
                        SaturatingAdd(utime, stime), startTime, lastCpu))
  {
    PrintedTaskParses(task);
    DecimalRoundTrip(ppid, I32_MAX);
    DecimalRoundTrip(utime, U64_MAX);
    DecimalRoundTrip(stime, U64_MAX);
    DecimalRoundTrip(threads, U32_MAX);
    DecimalRoundTrip(startTime, U64_MAX);
    DecimalRoundTrip(vsize, U64_MAX);
    DecimalRoundTrip(rss, U64_MAX);
    DecimalRoundTrip(lastCpu, U32_MAX);
    hide PrintDecimal, ParseUnsigned, ParseI32, ParseStat, PrintTask;
  }
}
