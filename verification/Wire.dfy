/** Joining, splitting and printing integers: the text primitives of the line format. */
module TextCodec {
  predicate Free(s: string, sep: char) {
    sep !in s
  }

  function Join(parts: seq<string>, sep: char): string {
    if parts == [] then ""
    else if |parts| == 1 then parts[0]
    else parts[0] + [sep] + Join(parts[1..], sep)
  }

  // StringSplit: empty parts are kept, and the text after the last separator is a part.
  function Split(s: string, sep: char): (parts: seq<string>)
    ensures |parts| >= 1
    ensures forall i :: 0 <= i < |parts| ==> Free(parts[i], sep)
  {
    SplitFrom("", s, sep)
  }

  function SplitFrom(head: string, s: string, sep: char): (parts: seq<string>)
    requires Free(head, sep)
    ensures |parts| >= 1
    ensures forall i :: 0 <= i < |parts| ==> Free(parts[i], sep)
    decreases |s|
  {
    if s == "" then [head]
    else if s[0] == sep then [head] + SplitFrom("", s[1..], sep)
    else SplitFrom(head + [s[0]], s[1..], sep)
  }

  lemma {:induction false} SplitFromPart(head: string, part: string, rest: string, sep: char)
    requires Free(head, sep) && Free(part, sep)
    ensures SplitFrom(head, part + [sep] + rest, sep) == [head + part] + SplitFrom("", rest, sep)
    ensures SplitFrom(head, part, sep) == [head + part]
    decreases |part|
  {
    var s := part + [sep] + rest;
    if part == "" {
      assert s[1..] == rest;
      assert head + "" == head;
    } else {
      SplitFromPart(head + [part[0]], part[1..], rest, sep);
      assert s[1..] == part[1..] + [sep] + rest;
      assert head + [part[0]] + part[1..] == head + part;
    }
  }

  lemma {:induction false} SplitJoin(parts: seq<string>, sep: char)
    requires parts != [] && forall i :: 0 <= i < |parts| ==> Free(parts[i], sep)
    ensures Split(Join(parts, sep), sep) == parts
  {
    var rest := Join(parts[1..], sep);
    SplitFromPart("", parts[0], rest, sep);
    assert "" + parts[0] == parts[0];
    if |parts| > 1 {
      SplitJoin(parts[1..], sep);
      assert parts == [parts[0]] + parts[1..];
    } else {
      assert parts == [parts[0]];
    }
  }

  lemma {:induction false} JoinFree(parts: seq<string>, sep: char, c: char)
    requires c != sep && forall i :: 0 <= i < |parts| ==> Free(parts[i], c)
    ensures Free(Join(parts, sep), c)
  {
    if |parts| > 1 {
      JoinFree(parts[1..], sep, c);
    }
  }

  function Digit(d: nat): char
    requires d < 10
  {
    '0' + d as char
  }

  function PrintNat(n: nat): (s: string)
    ensures s != "" && forall i :: 0 <= i < |s| ==> '0' <= s[i] <= '9'
  {
    if n < 10 then [Digit(n)] else PrintNat(n / 10) + [Digit(n % 10)]
  }

  function PrintInt(n: int): string {
    if n < 0 then "-" + PrintNat(-n) else PrintNat(n)
  }

  function ParseNat(s: string): int {
    if s == "" then 0 else
    var c := s[|s| - 1];
    if '0' <= c <= '9' then 10 * ParseNat(s[..|s| - 1]) + (c as int - '0' as int) else 0
  }

  // StringToInteger, for the texts the backend prints.
  function ParseInt(s: string): int {
    if s != "" && s[0] == '-' then -ParseNat(s[1..]) else ParseNat(s)
  }

  lemma {:induction false} ParsePrintNat(n: nat)
    ensures ParseNat(PrintNat(n)) == n
  {
    if n >= 10 {
      ParsePrintNat(n / 10);
      var s := PrintNat(n);
      assert s[..|s| - 1] == PrintNat(n / 10);
      assert s[|s| - 1] == Digit(n % 10);
    } else {
      assert PrintNat(n) == [Digit(n)];
      assert [Digit(n)][..0] == "";
    }
  }

  lemma ParsePrintInt(n: int)
    ensures ParseInt(PrintInt(n)) == n
    ensures Free(PrintInt(n), '|') && Free(PrintInt(n), '\n')
  {
    if n < 0 {
      ParsePrintNat(-n);
      var s := PrintInt(n);
      assert s[1..] == PrintNat(-n);
    } else {
      ParsePrintNat(n);
    }
  }
}

/** The line protocol between the backend, which prints it, and the MT5 agent, which parses it. */
module AgentWire {
  import opened Basics
  import opened TextCodec

  // A job as the backend polls it from the database. Times are milliseconds.
  datatype Job = Job(
    id: string, key: string, login: int, server: string, environment: string, symbol: string,
    direction: string, mode: string, riskMode: string, fixedLot: string, riskPercent: string,
    stopLoss: int, takeProfit: int, deviation: int, maxSpread: int, armSeconds: int, maxLateness: int,
    entryDistance: int, pendingExpiry: int, tradesPerSide: Option<int>, nextStep: Option<int>, nextSl: Option<int>,
    nextTp: Option<int>, executeAtMs: int, expiresAtMs: int, version: int)

  datatype Cancellation = Cancellation(id: string, version: int, at: string)

  // What the agent makes of one line. The fields a line does not carry are not part of the record.
  datatype Record =
    | Single(id: string, key: string, login: int, server: string, environment: string, symbol: string,
             direction: string, mode: string, riskMode: string, fixedLot: string, riskPercent: string,
             stopLoss: int, takeProfit: int, deviation: int, maxSpread: int, armSeconds: int, maxLateness: int,
             entryDistance: int, pendingExpiry: int, executeAt: int, expiresAt: int, version: int)
    | Multi(id: string, key: string, login: int, server: string, environment: string, symbol: string,
            riskMode: string, fixedLot: string, riskPercent: string,
            stopLoss: int, takeProfit: int, deviation: int, maxSpread: int, armSeconds: int,
            entryDistance: int, pendingExpiry: int, tradesPerSide: int, nextStep: int, nextSl: int, nextTp: int,
            executeAt: int, expiresAt: int, version: int)
    | Cancel(id: string, version: int)

  function Or(o: Option<int>, default: int): int {
    match o case None => default case Some(v) => v
  }

  function Sanitize(s: string): (r: string)
    ensures |r| == |s|
    ensures Free(r, '|') && Free(r, '\r') && Free(r, '\n')
    ensures forall i :: 0 <= i < |s| && !Separates(s[i]) ==> r[i] == s[i]
    ensures forall i :: 0 <= i < |s| && Separates(s[i]) ==> r[i] == '_'
  {
    seq(|s|, i requires 0 <= i < |s| => if s[i] in {'|', '\r', '\n'} then '_' else s[i])
  }

  predicate Separates(c: char) {
    c == '|' || c == '\r' || c == '\n'
  }

  function ServerTime(ms: int, offset: int): int {
    ms / 1000 + offset
  }

  function JobFields(j: Job, offset: int): seq<string> {
    if j.mode == "MULTI" then
      ["JOB3", j.id, j.key, PrintInt(j.login), Sanitize(j.server), j.environment, j.symbol,
       j.riskMode, j.fixedLot, j.riskPercent,
       PrintInt(j.stopLoss), PrintInt(j.takeProfit), PrintInt(j.deviation), PrintInt(j.maxSpread),
       PrintInt(j.armSeconds), PrintInt(j.entryDistance), PrintInt(j.pendingExpiry),
       PrintInt(Or(j.tradesPerSide, 2)), PrintInt(Or(j.nextStep, j.entryDistance)),
       PrintInt(Or(j.nextSl, j.stopLoss)), PrintInt(Or(j.nextTp, j.takeProfit)),
       PrintInt(ServerTime(j.executeAtMs, offset)), PrintInt(ServerTime(j.expiresAtMs, offset)), PrintInt(j.version)]
    else
      ["JOB2", j.id, j.key, PrintInt(j.login), Sanitize(j.server), j.environment, j.symbol,
       j.direction, j.mode, j.riskMode, j.fixedLot, j.riskPercent,
       PrintInt(j.stopLoss), PrintInt(j.takeProfit), PrintInt(j.deviation), PrintInt(j.maxSpread),
       PrintInt(j.armSeconds), PrintInt(j.maxLateness), PrintInt(j.entryDistance), PrintInt(j.pendingExpiry),
       PrintInt(ServerTime(j.executeAtMs, offset)), PrintInt(ServerTime(j.expiresAtMs, offset)), PrintInt(j.version)]
  }

  function CancelFields(c: Cancellation): seq<string> {
    ["CANCEL", c.id, PrintInt(c.version), c.at]
  }

  // What the agent should end up with.
  function Intended(j: Job, offset: int): Record {
    var execute, expires := ServerTime(j.executeAtMs, offset), ServerTime(j.expiresAtMs, offset);
    if j.mode == "MULTI" then
      Multi(j.id, j.key, j.login, Sanitize(j.server), j.environment, j.symbol, j.riskMode, j.fixedLot, j.riskPercent,
            j.stopLoss, j.takeProfit, j.deviation, j.maxSpread, j.armSeconds, j.entryDistance, j.pendingExpiry,
            Or(j.tradesPerSide, 2), Or(j.nextStep, j.entryDistance), Or(j.nextSl, j.stopLoss),
            Or(j.nextTp, j.takeProfit), execute, expires, j.version)
    else
      Single(j.id, j.key, j.login, Sanitize(j.server), j.environment, j.symbol, j.direction, j.mode, j.riskMode,
             j.fixedLot, j.riskPercent, j.stopLoss, j.takeProfit, j.deviation, j.maxSpread, j.armSeconds,
             j.maxLateness, j.entryDistance, j.pendingExpiry, execute, expires, j.version)
  }

  // ParseJobLine: a short line is dropped, extra fields are ignored.
  function ParseSingle(f: seq<string>): Option<Record> {
    if |f| < 23 then None else
    Some(Single(f[1], f[2], ParseInt(f[3]), f[4], f[5], f[6], f[7], f[8], f[9], f[10], f[11],
                ParseInt(f[12]), ParseInt(f[13]), ParseInt(f[14]), ParseInt(f[15]), ParseInt(f[16]), ParseInt(f[17]),
                ParseInt(f[18]), ParseInt(f[19]), ParseInt(f[20]), ParseInt(f[21]), ParseInt(f[22])))
  }

  function ParseMulti(f: seq<string>): Option<Record> {
    if |f| < 24 then None else
    Some(Multi(f[1], f[2], ParseInt(f[3]), f[4], f[5], f[6], f[7], f[8], f[9],
               ParseInt(f[10]), ParseInt(f[11]), ParseInt(f[12]), ParseInt(f[13]), ParseInt(f[14]), ParseInt(f[15]),
               ParseInt(f[16]), ParseInt(f[17]), ParseInt(f[18]), ParseInt(f[19]), ParseInt(f[20]),
               ParseInt(f[21]), ParseInt(f[22]), ParseInt(f[23])))
  }

  function ParseCancel(f: seq<string>): Option<Record> {
    if |f| < 3 then None else Some(Cancel(f[1], ParseInt(f[2])))
  }

  predicate StartsWith(line: string, prefix: string) {
    |line| >= |prefix| && line[..|prefix|] == prefix
  }

  function ParseLine(line: string): Option<Record> {
    if StartsWith(line, "JOB2|") then ParseSingle(Split(line, '|'))
    else if StartsWith(line, "JOB3|") then ParseMulti(Split(line, '|'))
    else if StartsWith(line, "CANCEL|") then ParseCancel(Split(line, '|'))
    else None
  }

  function Recorded(line: string): seq<Record> {
    match ParseLine(line)
    case None => []
    case Some(r) => [r]
  }

  function ParseLines(lines: seq<string>): seq<Record> {
    if lines == [] then [] else Recorded(lines[0]) + ParseLines(lines[1..])
  }

  function ParsePoll(text: string): seq<Record> {
    ParseLines(Split(text, '\n'))
  }

  function JobLines(jobs: seq<Job>, offset: int): seq<string> {
    seq(|jobs|, i requires 0 <= i < |jobs| => Join(JobFields(jobs[i], offset), '|'))
  }

  function CancelLines(cs: seq<Cancellation>): seq<string> {
    seq(|cs|, i requires 0 <= i < |cs| => Join(CancelFields(cs[i]), '|'))
  }

  function Lines(serverTime: string, jobs: seq<Job>, cs: seq<Cancellation>, offset: int): seq<string> {
    ["NEWSBOT/2|" + serverTime] + JobLines(jobs, offset) + CancelLines(cs)
  }

  function Printed(serverTime: string, jobs: seq<Job>, cs: seq<Cancellation>, offset: int): string {
    Join(Lines(serverTime, jobs, cs, offset), '\n') + "\n"
  }

  method PollForAgentText(serverTime: string, jobs: seq<Job>, cs: seq<Cancellation>, offset: int) returns (text: string)
    ensures text == Printed(serverTime, jobs, cs, offset)
  {
    hide JobFields, CancelFields, Join;
    var lines := ["NEWSBOT/2|" + serverTime];
    ghost var head := lines;
    for i := 0 to |jobs|
      invariant lines == head + JobLines(jobs, offset)[..i]
    {
      lines := lines + [Join(JobFields(jobs[i], offset), '|')];
    }
    assert JobLines(jobs, offset)[..|jobs|] == JobLines(jobs, offset);
    head := lines;
    for i := 0 to |cs|
      invariant lines == head + CancelLines(cs)[..i]
    {
      lines := lines + [Join(CancelFields(cs[i]), '|')];
    }
    assert CancelLines(cs)[..|cs|] == CancelLines(cs);
    assert lines == Lines(serverTime, jobs, cs, offset);
    text := Join(lines, '\n') + "\n";
  }

  method PollJobs(text: string) returns (records: seq<Record>)
    ensures records == ParsePoll(text)
  {
    hide ParseLine, Split, ParseLines;
    var lines := Split(text, '\n');
    records := [];
    assert lines[0..] == lines;
    for i := 0 to |lines|
      invariant records + ParseLines(lines[i..]) == ParsePoll(text)
    {
      ParseLinesFrom(lines, i);
      ghost var rest := ParseLines(lines[i + 1..]);
      assert records + (Recorded(lines[i]) + rest) == (records + Recorded(lines[i])) + rest;
      var record := ParseLine(lines[i]);
      match record
      case None =>
      case Some(r) => records := records + [r];
    }
    ParseLinesFrom(lines, |lines|);
  }

  lemma ParseLinesFrom(lines: seq<string>, i: nat)
    requires i <= |lines|
    ensures i < |lines| ==> ParseLines(lines[i..]) == Recorded(lines[i]) + ParseLines(lines[i + 1..])
    ensures i == |lines| ==> ParseLines(lines[i..]) == []
  {
    hide Recorded;
    if i < |lines| {
      assert lines[i..][1..] == lines[i + 1..];
    }
  }

  function IntendedAll(jobs: seq<Job>, cs: seq<Cancellation>, offset: int): seq<Record> {
    seq(|jobs|, i requires 0 <= i < |jobs| => Intended(jobs[i], offset))
    + seq(|cs|, i requires 0 <= i < |cs| => Cancel(cs[i].id, cs[i].version))
  }

  // Neither separator of the format. A carriage return does no harm: the agent does not split on it.
  predicate Plain(s: string) {
    Free(s, '|') && Free(s, '\n')
  }

  // The text fields that reach the line unsanitized.
  predicate PlainJob(j: Job) {
    && Plain(j.id) && Plain(j.key) && Plain(j.environment) && Plain(j.symbol)
    && Plain(j.riskMode) && Plain(j.fixedLot) && Plain(j.riskPercent)
    && (j.mode != "MULTI" ==> Plain(j.direction) && Plain(j.mode))
  }

  ghost predicate PlainJobs(jobs: seq<Job>) {
    forall i :: 0 <= i < |jobs| ==> PlainJob(jobs[i])
  }

  ghost predicate PlainIds(cs: seq<Cancellation>) {
    forall i :: 0 <= i < |cs| ==> Plain(cs[i].id)
  }

  // Cancellation times come from the clock, not from a user.
  ghost predicate PlainTimes(cs: seq<Cancellation>) {
    forall i :: 0 <= i < |cs| ==> Plain(cs[i].at)
  }

  ghost predicate PlainList(fields: seq<string>) {
    forall i :: 0 <= i < |fields| ==> Plain(fields[i])
  }

  lemma PlainInt(n: int)
    ensures Plain(PrintInt(n)) && ParseInt(PrintInt(n)) == n
  {
    ParsePrintInt(n);
  }

  lemma AllPlainInts()
    ensures forall n: int {:trigger PrintInt(n)} :: Plain(PrintInt(n)) && ParseInt(PrintInt(n)) == n
  {
    forall n: int ensures Plain(PrintInt(n)) && ParseInt(PrintInt(n)) == n {
      PlainInt(n);
    }
  }

  lemma JobFieldsPlain(j: Job, offset: int)
    requires PlainJob(j)
    ensures PlainList(JobFields(j, offset))
  {
    hide PrintInt, Sanitize, ParseInt, ServerTime;
    AllPlainInts();
    assert Plain("JOB2") && Plain("JOB3");
    assert Plain(Sanitize(j.server));
  }

  lemma SplitFields(fields: seq<string>)
    requires fields != [] && PlainList(fields)
    ensures Split(Join(fields, '|'), '|') == fields && Free(Join(fields, '|'), '\n')
  {
    SplitJoin(fields, '|');
    JoinFree(fields, '|', '\n');
  }

  lemma SingleFieldsParse(j: Job, offset: int)
    requires j.mode != "MULTI"
    ensures ParseSingle(JobFields(j, offset)) == Some(Intended(j, offset))
  {
    hide PrintInt, ParseInt, ServerTime, Sanitize, Plain;
    AllPlainInts();
    var f := JobFields(j, offset);
    assert |f| == 23;
  }

  lemma MultiFieldsParse(j: Job, offset: int)
    requires j.mode == "MULTI"
    ensures ParseMulti(JobFields(j, offset)) == Some(Intended(j, offset))
  {
    hide PrintInt, ParseInt, ServerTime, Sanitize, Plain, Or;
    AllPlainInts();
    var f := JobFields(j, offset);
    assert |f| == 24;
  }

  // The first field decides which parser a line goes to.
  lemma HeadOfLine(fields: seq<string>)
    requires |fields| >= 2
    ensures StartsWith(Join(fields, '|'), fields[0] + "|")
  {
  }

  lemma Dispatched(line: string)
    ensures StartsWith(line, "JOB2|") ==> ParseLine(line) == ParseSingle(Split(line, '|'))
    ensures StartsWith(line, "JOB3|") ==> ParseLine(line) == ParseMulti(Split(line, '|'))
    ensures StartsWith(line, "CANCEL|") ==> ParseLine(line) == ParseCancel(Split(line, '|'))
  {
    hide ParseSingle, ParseMulti, ParseCancel, Split;
    if StartsWith(line, "JOB2|") || StartsWith(line, "JOB3|") {
      assert line[0] == 'J' && line[..5][3] == line[3];
    }
    if StartsWith(line, "CANCEL|") {
      assert line[..7][0] == line[0] == 'C';
    }
  }

  lemma JobLineParses(j: Job, offset: int)
    requires PlainJob(j)
    ensures ParseLine(Join(JobFields(j, offset), '|')) == Some(Intended(j, offset))
    ensures Free(Join(JobFields(j, offset), '|'), '\n')
  {
    hide PlainJob, Intended, Split, ParseLine, ParseSingle, ParseMulti, Join, StartsWith, PrintInt, Sanitize,
      ServerTime, Or;
    var fields := JobFields(j, offset);
    JobFieldsPlain(j, offset);
    SplitFields(fields);
    HeadOfLine(fields);
    Dispatched(Join(fields, '|'));
    if j.mode == "MULTI" {
      assert fields[0] + "|" == "JOB3|";
      MultiFieldsParse(j, offset);
    } else {
      assert fields[0] + "|" == "JOB2|";
      SingleFieldsParse(j, offset);
    }
  }

  lemma CancelLineParses(c: Cancellation)
    requires Plain(c.id) && Plain(c.at)
    ensures ParseLine(Join(CancelFields(c), '|')) == Some(Cancel(c.id, c.version))
    ensures Free(Join(CancelFields(c), '|'), '\n')
  {
    hide Split, ParseLine, Join, StartsWith, PrintInt, ParseInt;
    var fields := CancelFields(c);
    PlainInt(c.version);
    SplitFields(fields);
    HeadOfLine(fields);
    assert fields[0] + "|" == "CANCEL|";
    Dispatched(Join(fields, '|'));
  }

  lemma ParseLinesCons(line: string, rest: seq<string>)
    ensures ParseLines([line] + rest) == Recorded(line) + ParseLines(rest)
  {
    hide Recorded;
    assert ([line] + rest)[1..] == rest;
  }

  lemma {:induction false} ParseLinesSplit(xs: seq<string>, ys: seq<string>)
    ensures ParseLines(xs + ys) == ParseLines(xs) + ParseLines(ys)
  {
    hide Recorded, ParseLines;
    if xs == [] {
      assert xs + ys == ys;
      ParseLinesFrom(xs, 0);
      assert xs[0..] == xs;
    } else {
      var line, rest := xs[0], xs[1..];
      ParseLinesSplit(rest, ys);
      assert xs == [line] + rest && xs + ys == [line] + (rest + ys);
      ParseLinesCons(line, rest);
      ParseLinesCons(line, rest + ys);
      assert Recorded(line) + (ParseLines(rest) + ParseLines(ys)) == (Recorded(line) + ParseLines(rest))
        + ParseLines(ys);
    }
  }

  // Lines that each parse to the record in the same place.
  lemma {:induction false} ParseEach(lines: seq<string>, records: seq<Record>)
    requires |lines| == |records|
    requires forall i :: 0 <= i < |lines| ==> ParseLine(lines[i]) == Some(records[i])
    ensures ParseLines(lines) == records
  {
    hide ParseLine;
    if lines != [] {
      ParseEach(lines[1..], records[1..]);
    }
  }

  lemma HeaderIgnored(serverTime: string)
    ensures ParseLine("NEWSBOT/2|" + serverTime).None?
    ensures ParseLine("").None?
  {
    hide ParseSingle, ParseMulti, ParseCancel, Split;
    var line := "NEWSBOT/2|" + serverTime;
    assert line[..5][0] == line[..7][0] == line[0] == 'N';
  }

  // The printed text cut back into its lines.
  lemma PrintedLines(lines: seq<string>)
    requires lines != [] && forall i :: 0 <= i < |lines| ==> Free(lines[i], '\n')
    ensures Split(Join(lines, '\n') + "\n", '\n') == lines + [""]
  {
    var all := lines + [""];
    SplitJoin(all, '\n');
    JoinLast(lines, '\n');
  }

  lemma {:induction false} JoinLast(lines: seq<string>, sep: char)
    requires lines != []
    ensures Join(lines + [""], sep) == Join(lines, sep) + [sep]
  {
    var all := lines + [""];
    if |lines| == 1 {
      assert all[1..] == [""];
      assert Join([""], sep) == "";
    } else {
      JoinLast(lines[1..], sep);
      assert all[1..] == lines[1..] + [""];
      assert Join(all, sep) == lines[0] + [sep] + (Join(lines[1..], sep) + [sep]);
    }
  }

  lemma JobLinesParse(jobs: seq<Job>, offset: int)
    requires PlainJobs(jobs)
    ensures ParseLines(JobLines(jobs, offset)) == seq(|jobs|, i requires 0 <= i < |jobs| => Intended(jobs[i], offset))
    ensures FreeLines(JobLines(jobs, offset))
  {
    hide JobFields, Join, ParseLine, Intended, PlainJob, ParseLines;
    var lines := JobLines(jobs, offset);
    forall i | 0 <= i < |jobs|
      ensures ParseLine(lines[i]) == Some(Intended(jobs[i], offset)) && Free(lines[i], '\n')
    {
      JobLineParses(jobs[i], offset);
    }
    ParseEach(lines, seq(|jobs|, i requires 0 <= i < |jobs| => Intended(jobs[i], offset)));
  }

  lemma CancelLinesParse(cs: seq<Cancellation>)
    requires PlainIds(cs) && PlainTimes(cs)
    ensures ParseLines(CancelLines(cs)) == seq(|cs|, i requires 0 <= i < |cs| => Cancel(cs[i].id, cs[i].version))
    ensures FreeLines(CancelLines(cs))
  {
    hide CancelFields, Join, ParseLine, Plain, ParseLines;
    var lines := CancelLines(cs);
    forall i | 0 <= i < |cs|
      ensures ParseLine(lines[i]) == Some(Cancel(cs[i].id, cs[i].version)) && Free(lines[i], '\n')
    {
      CancelLineParses(cs[i]);
    }
    ParseEach(lines, seq(|cs|, i requires 0 <= i < |cs| => Cancel(cs[i].id, cs[i].version)));
  }

  predicate FreeLines(lines: seq<string>) {
    forall i :: 0 <= i < |lines| ==> Free(lines[i], '\n')
  }

  lemma FreeConcat(xs: seq<string>, ys: seq<string>)
    requires FreeLines(xs) && FreeLines(ys)
    ensures FreeLines(xs + ys)
  {
  }

  // A text of three groups of lines is parsed group by group.
  lemma GroupsParse(xs: seq<string>, ys: seq<string>, zs: seq<string>)
    requires xs != [] && FreeLines(xs) && FreeLines(ys) && FreeLines(zs)
    ensures ParsePoll(Join(xs + ys + zs, '\n') + "\n") == ParseLines(xs) + ParseLines(ys) + ParseLines(zs)
  {
    hide Join, Split, FreeLines, ParseLines;
    FreeConcat(xs, ys);
    FreeConcat(xs + ys, zs);
    PrintedSplit(xs + ys + zs);
    ParseLinesSplit(xs + ys + zs, [""]);
    ParseLinesSplit(xs + ys, zs);
    ParseLinesSplit(xs, ys);
    EmptyLine();
  }

  lemma PrintedSplit(lines: seq<string>)
    requires lines != [] && FreeLines(lines)
    ensures Split(Join(lines, '\n') + "\n", '\n') == lines + [""]
  {
    PrintedLines(lines);
  }

  lemma EmptyLine()
    ensures ParseLines([""]) == []
  {
    HeaderIgnored("");
  }

  lemma HeaderLine(serverTime: string)
    requires Free(serverTime, '\n')
    ensures ParseLines(["NEWSBOT/2|" + serverTime]) == [] && FreeLines(["NEWSBOT/2|" + serverTime])
  {
    HeaderIgnored(serverTime);
    assert Free("NEWSBOT/2|", '\n');
  }

  // Every record arrives, field by field and in order, with times in server seconds.
  lemma Arrives(serverTime: string, jobs: seq<Job>, cs: seq<Cancellation>, offset: int)
    requires Free(serverTime, '\n') && PlainTimes(cs)
    requires PlainJobs(jobs) && PlainIds(cs)
    ensures ParsePoll(Printed(serverTime, jobs, cs, offset)) == IntendedAll(jobs, cs, offset)
  {
    hide JobLines, CancelLines, ParseLines, Join, Free, ParsePoll, PlainJobs, PlainIds, PlainTimes, FreeLines, Intended;
    JobLinesParse(jobs, offset);
    CancelLinesParse(cs);
    HeaderLine(serverTime);
    GroupsParse(["NEWSBOT/2|" + serverTime], JobLines(jobs, offset), CancelLines(cs));
  }

  predicate PlainRecord(r: Record) {
    && Plain(r.id)
    && (r.Cancel? || (Plain(r.key) && Plain(r.server) && Plain(r.environment) && Plain(r.symbol)
                      && Plain(r.riskMode) && Plain(r.fixedLot) && Plain(r.riskPercent)))
    && (r.Single? ==> Plain(r.direction) && Plain(r.mode))
  }

  lemma {:induction false} SplitFromKeeps(head: string, s: string, sep: char, c: char)
    requires Free(head, sep) && Free(head, c) && Free(s, c)
    ensures forall i :: 0 <= i < |SplitFrom(head, s, sep)| ==> Free(SplitFrom(head, s, sep)[i], c)
    decreases |s|
  {
    if s != "" {
      if s[0] == sep { SplitFromKeeps("", s[1..], sep, c); } else { SplitFromKeeps(head + [s[0]], s[1..], sep, c); }
    }
  }

  lemma ParsedPlain(line: string)
    requires Free(line, '\n')
    ensures ParseLine(line).Some? ==> PlainRecord(ParseLine(line).value)
  {
    SplitFromKeeps("", line, '|', '\n');
    var f := Split(line, '|');
    hide ParseInt, SplitFrom, Split;
    assert forall i :: 0 <= i < |f| ==> Plain(f[i]);
  }

  lemma {:induction false} AllParsedPlain(lines: seq<string>)
    requires forall i :: 0 <= i < |lines| ==> Free(lines[i], '\n')
    ensures forall i :: 0 <= i < |ParseLines(lines)| ==> PlainRecord(ParseLines(lines)[i])
  {
    hide ParseLine, PlainRecord;
    if lines != [] {
      ParsedPlain(lines[0]);
      AllParsedPlain(lines[1..]);
    }
  }

  // The round trip holds exactly when no unsanitized field contains a separator. The idempotency key is such a field.
  lemma RoundTrip(serverTime: string, jobs: seq<Job>, cs: seq<Cancellation>, offset: int)
    requires Free(serverTime, '\n') && PlainTimes(cs)
    ensures ParsePoll(Printed(serverTime, jobs, cs, offset)) == IntendedAll(jobs, cs, offset) <==>
              PlainJobs(jobs) && PlainIds(cs)
  {
    hide ParseLines, Printed, Split, Plain;
    var text, all := Printed(serverTime, jobs, cs, offset), IntendedAll(jobs, cs, offset);
    if PlainJobs(jobs) && PlainIds(cs) {
      Arrives(serverTime, jobs, cs, offset);
    }
    if ParsePoll(text) == all {
      AllParsedPlain(Split(text, '\n'));
      forall i | 0 <= i < |jobs| ensures PlainJob(jobs[i]) {
        assert PlainRecord(all[i]) && all[i] == Intended(jobs[i], offset);
      }
      forall i | 0 <= i < |cs| ensures Plain(cs[i].id) {
        assert PlainRecord(all[|jobs| + i]) && all[|jobs| + i] == Cancel(cs[i].id, cs[i].version);
      }
    }
  }
}
