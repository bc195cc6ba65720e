/** Forwarding a streamed model reply, line by line, to the client. */
module Stream {
  import opened Httpx
  import opened Strings
  import opened Json
  import opened Outcome
  import Redact

  const MAX_RESPONSE: nat := 33_554_432

  // ---------- the client ----------

  datatype Frame = Begin | Line(text: string) | ErrorFrame(code: Code)

  /** The client's end: everything written to it, and which of the writes fail. */
  class Sink {
    const fails: nat -> Option<Code>
    var writes: seq<Frame>

    constructor (fails: nat -> Option<Code>)
      ensures this.fails == fails && writes == []
    {
      this.fails := fails;
      writes := [];
    }

    method Write(f: Frame) returns (failure: Option<Code>)
      modifies this
      ensures writes == old(writes) + [f] && failure == fails(|old(writes)|)
    {
      failure := fails(|writes|);
      writes := writes + [f];
    }
  }

  // ---------- one line ----------

  /** What a line means. `parse` decodes JSON; it yields nothing for invalid text. */
  datatype Kind = Plain | Done | Counted(usage: Usage) | BadUsage(code: Code) | Bad(code: Code)

  function LineKind(parse: string -> Option<Json>, line: string): Kind {
    if !("data:" <= line) then Plain
    else
      var data := TrimSpace(line[5..]);
      if data == "[DONE]" then Done
      else if data == "" then Plain
      else
        match parse(data)
        case None => Bad(UPSTREAM_INVALID_RESPONSE)
        case Some(event) =>
          if event.Obj? && "error" in event.fields then Bad(UPSTREAM_ERROR)
          else if event.Obj? && "usage" in event.fields then
            match ExtractUsage(event)
            case Ok(u) => Counted(u)
            case Err(e) => BadUsage(e.code)
          else Plain
  }

  function Redacted(secret: string, line: string): Frame
    requires secret != ""
  {
    Line(ReplaceAll(line, secret, Redact.TAG) + "\n")
  }

  // ---------- a whole reply ----------

  /** An upstream reply as the scanner delivers it: its lines, and the error that ended them, if any. */
  datatype Reply = Reply(sse: bool, lines: seq<string>, scanErr: Option<Code>)

  ghost function Size(lines: seq<string>): nat {
    if lines == [] then 0 else Size(lines[..|lines| - 1]) + |lines[|lines| - 1]|
  }

  ghost predicate TooLarge(lines: seq<string>, i: nat) {
    i < |lines| && Size(lines[..i + 1]) > MAX_RESPONSE
  }

  ghost function Kinds(parse: string -> Option<Json>, lines: seq<string>): (kinds: seq<Kind>)
    ensures |kinds| == |lines|
  {
    if lines == [] then []
    else Kinds(parse, lines[..|lines| - 1]) + [LineKind(parse, lines[|lines| - 1])]
  }

  lemma {:induction false} KindAt(parse: string -> Option<Json>, lines: seq<string>, i: nat)
    requires i < |lines|
    ensures Kinds(parse, lines)[i] == LineKind(parse, lines[i])
  {
    if i < |lines| - 1 { KindAt(parse, lines[..|lines| - 1], i); }
  }

  /** A reply as far as it decides where to stop: what its lines mean and how long they are. */
  datatype Script = Script(lines: seq<string>, kinds: seq<Kind>, fails: nat -> Option<Code>)

  ghost predicate Proper(t: Script) {
    |t.kinds| == |t.lines|
  }

  ghost predicate BadLine(t: Script, i: nat)
    requires Proper(t)
  {
    i < |t.lines| && (t.kinds[i].Bad? || t.kinds[i].BadUsage?)
  }

  /** The write of line i comes after the opening one. */
  ghost predicate Stops(t: Script, i: nat)
    requires Proper(t)
  {
    i < |t.lines| && (TooLarge(t.lines, i) || BadLine(t, i) || t.fails(i + 1).Some?)
  }

  ghost predicate FirstStop(t: Script, n: nat)
    requires Proper(t)
  {
    n <= |t.lines| && (n < |t.lines| ==> Stops(t, n)) && NoStopBefore(t, n)
  }

  ghost predicate NoStopBefore(t: Script, n: nat)
    requires Proper(t)
  {
    forall i :: 0 <= i < n ==> !Stops(t, i)
  }

  lemma {:induction false} NoStopYet(t: Script, i: nat)
    requires Proper(t) && NoStopBefore(t, i) && !Stops(t, i)
    ensures NoStopBefore(t, i + 1)
  {
  }

  ghost predicate SawDone(kinds: seq<Kind>) {
    exists i :: 0 <= i < |kinds| && kinds[i].Done?
  }

  /** The usage of the last usage event; nothing when that one was bad. */
  ghost function LastUsage(kinds: seq<Kind>): Usage {
    if kinds == [] then NO_USAGE
    else
      match kinds[|kinds| - 1]
      case Counted(u) => u
      case BadUsage(_) => NO_USAGE
      case _ => LastUsage(kinds[..|kinds| - 1])
  }

  /** How many lines are looked into when line n is the first to stop at. */
  ghost function Inspected(lines: seq<string>, n: nat): (m: nat)
    requires n <= |lines|
    ensures n <= m <= |lines|
  {
    if n < |lines| && !TooLarge(lines, n) then n + 1 else n
  }

  /** Why the loop is left at line n. */
  ghost function StopCause(t: Script, n: nat): Option<Code>
    requires Proper(t) && n < |t.lines|
  {
    if TooLarge(t.lines, n) then Some(UPSTREAM_RESPONSE_TOO_LARGE)
    else
      match t.kinds[n]
      case Bad(code) => Some(code)
      case BadUsage(code) => Some(code)
      case _ => t.fails(n + 1)
  }

  ghost function Forwarded(secret: string, lines: seq<string>): (frames: seq<Frame>)
    requires secret != ""
    ensures |frames| == |lines|
  {
    seq(|lines|, i requires 0 <= i < |lines| => Redacted(secret, lines[i]))
  }

  /** What is written before the loop ends, when line n is the first to stop at: the opening frame and,
      in order, the redacted lines before it, and line n itself when only its own write failed. */
  ghost function Written(secret: string, t: Script, n: nat): seq<Frame>
    requires Proper(t) && secret != "" && n <= |t.lines|
  {
    [Begin] + Forwarded(secret, t.lines[..n])
    + if n < |t.lines| && !TooLarge(t.lines, n) && !BadLine(t, n) then [Redacted(secret, t.lines[n])] else []
  }

  lemma {:induction false} OneMoreLine(secret: string, t: Script, i: nat)
    requires Proper(t) && secret != "" && i < |t.lines|
    ensures Size(t.lines[..i + 1]) == Size(t.lines[..i]) + |t.lines[i]|
    ensures SawDone(t.kinds[..i + 1]) <==> SawDone(t.kinds[..i]) || t.kinds[i].Done?
    ensures LastUsage(t.kinds[..i + 1]) ==
            match t.kinds[i]
            case Counted(u) => u
            case BadUsage(_) => NO_USAGE
            case _ => LastUsage(t.kinds[..i])
    ensures Forwarded(secret, t.lines[..i + 1]) == Forwarded(secret, t.lines[..i]) + [Redacted(secret, t.lines[i])]
  {
    assert t.lines[..i + 1][..i] == t.lines[..i];
    assert t.kinds[..i + 1][..i] == t.kinds[..i];
    assert forall j | 0 <= j < i :: t.kinds[..i + 1][j] == t.kinds[..i][j];
    assert t.kinds[..i + 1][i] == t.kinds[i];
  }

  // ---------- the code ----------

  ghost function ScriptOf(parse: string -> Option<Json>, r: Reply, fails: nat -> Option<Code>): (t: Script)
    ensures Proper(t)
  {
    Script(r.lines, Kinds(parse, r.lines), fails)
  }

  /** The scanning loop; `failure` is why it was left early, at line n. */
  method Scan(parse: string -> Option<Json>, secret: string, r: Reply, sink: Sink)
    returns (u: Usage, done: bool, failure: Option<Code>, ghost n: nat)
    requires secret != "" && sink.writes == [Begin]
    modifies sink
    ensures var t := ScriptOf(parse, r, sink.fails);
      && FirstStop(t, n)
      && u == LastUsage(t.kinds[..Inspected(r.lines, n)])
      && failure == (if n < |r.lines| then StopCause(t, n) else None)
      && (n == |r.lines| ==> (done <==> SawDone(t.kinds)))
      && sink.writes == Written(secret, t, n)
  {
    ghost var t := ScriptOf(parse, r, sink.fails);
    u, done, failure := NO_USAGE, false, None;
    var size := 0;
    for i := 0 to |r.lines|
      invariant NoStopBefore(t, i)
      invariant u == LastUsage(t.kinds[..i])
      invariant done <==> SawDone(t.kinds[..i])
      invariant size == Size(r.lines[..i])
      invariant sink.writes == [Begin] + Forwarded(secret, r.lines[..i])
      invariant failure.None?
    {
      var line := r.lines[i];
      n := i;
      OneMoreLine(secret, t, i);
      KindAt(parse, r.lines, i);
      size := size + |line|;
      if size > MAX_RESPONSE {
        return u, done, Some(UPSTREAM_RESPONSE_TOO_LARGE), n;
      }
      match LineKind(parse, line) {
        case Plain =>
        case Done =>
          done := true;
        case Counted(v) =>
          u := v;
        case BadUsage(code) =>
          return NO_USAGE, done, Some(code), n;
        case Bad(code) =>
          return u, done, Some(code), n;
      }
      failure := sink.Write(Redacted(secret, line));
      if failure.Some? {
        return u, done, failure, n;
      }
      NoStopYet(t, i);
    }
    assert r.lines[..|r.lines|] == r.lines && t.kinds[..|r.lines|] == t.kinds;
    n := |r.lines|;
  }

  /** Why the whole reply did not end well, when line n is the first to stop at. */
  ghost function Ending(t: Script, scanErr: Option<Code>, n: nat): Option<Code>
    requires Proper(t) && n <= |t.lines|
  {
    if n < |t.lines| then StopCause(t, n)
    else if scanErr.Some? then scanErr
    else if SawDone(t.kinds) then None
    else Some(UPSTREAM_STREAM_INCOMPLETE)
  }

  /** What the client has seen and what the gateway concludes at the end. */
  ghost predicate Concludes(secret: string, t: Script, scanErr: Option<Code>, n: nat, end: StreamEnd,
                            writes: seq<Frame>)
    requires Proper(t) && secret != "" && n <= |t.lines|
  {
    var failure := Ending(t, scanErr, n);
    && end == Ended(LastUsage(t.kinds[..Inspected(t.lines, n)]), failure)
    && writes == Written(secret, t, n) + if failure.Some? then [ErrorFrame(failure.value)] else []
  }

  method Forward(parse: string -> Option<Json>, secret: string, r: Reply, sink: Sink)
    returns (end: StreamEnd, ghost n: nat)
    requires secret != "" && sink.writes == []
    modifies sink
    ensures !r.sse ==> end == NotSse && sink.writes == []
    ensures r.sse && sink.fails(0).Some? ==> end == ClientGone(sink.fails(0).value) && sink.writes == [Begin]
    ensures r.sse && sink.fails(0).None? ==>
      var t := ScriptOf(parse, r, sink.fails);
      FirstStop(t, n) && Concludes(secret, t, r.scanErr, n, end, sink.writes)
  {
    n := 0;
    if !r.sse {
      return NotSse, n;
    }
    var gone := sink.Write(Begin);
    if gone.Some? {
      return ClientGone(gone.value), n;
    }
    var u, done, failure;
    u, done, failure, n := Scan(parse, secret, r, sink);
    StopsForACause(ScriptOf(parse, r, sink.fails), n);
    if failure.None? {
      failure := r.scanErr;
    }
    if failure.None? && !done {
      failure := Some(UPSTREAM_STREAM_INCOMPLETE);
    }
    if failure.Some? {
      var ignored := sink.Write(ErrorFrame(failure.value));
    }
    return Ended(u, failure), n;
  }

  lemma {:induction false} StopsForACause(t: Script, n: nat)
    requires Proper(t) && FirstStop(t, n)
    ensures n < |t.lines| ==> StopCause(t, n).Some?
  {
  }

  // ---------- main results ----------

  /** There is exactly one first line to stop at, or the end of the reply. */
  lemma {:induction false} FirstStopUnique(t: Script, n: nat, m: nat)
    requires Proper(t) && FirstStop(t, n) && FirstStop(t, m)
    ensures n == m
  {
  }

  /** No line is bad or brings the reply over its limit, and no write fails. */
  ghost predicate AllFine(t: Script)
    requires Proper(t)
  {
    forall i :: 0 <= i < |t.lines| ==> !Stops(t, i)
  }

  lemma {:induction false} EndsWellIff(t: Script, scanErr: Option<Code>, n: nat)
    requires Proper(t) && FirstStop(t, n)
    ensures Ending(t, scanErr, n).None? <==> AllFine(t) && scanErr.None? && SawDone(t.kinds)
    ensures AllFine(t) ==> n == |t.lines|
  {
    StopsForACause(t, n);
  }

  lemma {:induction false} SettledByFailure(u: Usage, failure: Option<Code>, cancelled: bool)
    ensures SettleStream(Ended(u, failure), cancelled).status == SUCCEEDED <==> failure.None?
    ensures SettleStream(Ended(u, failure), cancelled).usage == u
  {
  }

  /** A forwarded stream succeeds exactly when no line and no write was bad, the scanner reported no
      error, and the end marker was among the lines; then the client has seen every line. */
  lemma {:induction false} SucceedsIff(secret: string, t: Script, scanErr: Option<Code>, n: nat, end: StreamEnd,
                                       writes: seq<Frame>, cancelled: bool)
    requires Proper(t) && secret != "" && FirstStop(t, n) && Concludes(secret, t, scanErr, n, end, writes)
    ensures SettleStream(end, cancelled).status == SUCCEEDED <==> AllFine(t) && scanErr.None? && SawDone(t.kinds)
    ensures SettleStream(end, cancelled).status == SUCCEEDED ==> writes == [Begin] + Forwarded(secret, t.lines)
  {
    EndsWellIff(t, scanErr, n);
    SettledByFailure(LastUsage(t.kinds[..Inspected(t.lines, n)]), Ending(t, scanErr, n), cancelled);
    assert t.lines[..|t.lines|] == t.lines;
  }

  // ---------- the same on the text ----------

  lemma {:induction false} OtherLinesArePlain(parse: string -> Option<Json>, line: string)
    requires !("data:" <= line)
    ensures LineKind(parse, line) == Plain
  {
  }

  predicate Blank(s: string) {
    forall i :: 0 <= i < |s| ==> s[i] == ' ' || s[i] == '\t' || s[i] == '\r'
  }

  lemma {:induction false} DataIsTrimmed(pad: string, data: string, after: string)
    requires Blank(pad) && Blank(after)
    requires data != "" ==> '!' <= data[0] <= '~' && '!' <= data[|data| - 1] <= '~'
    ensures var line := "data:" + (pad + (data + after)); "data:" <= line && TrimSpace(line[5..]) == data
  {
    var line := "data:" + (pad + (data + after));
    assert line[5..] == pad + (data + after);
    Trimmed(pad, data, after);
  }

  /** A data line is the end marker, or nothing, or an event: bad when it is no JSON or has an error, a count
      when it has usage, and bad again when that cannot be read. */
  lemma {:induction false} DataLineIs(parse: string -> Option<Json>, pad: string, data: string, after: string)
    requires Blank(pad) && Blank(after)
    requires data != "" ==> '!' <= data[0] <= '~' && '!' <= data[|data| - 1] <= '~'
    ensures var kind, event := LineKind(parse, "data:" + (pad + (data + after))), parse(data);
      && (data == "[DONE]" ==> kind == Done)
      && (data == "" ==> kind == Plain)
      && (data != "[DONE]" && data != "" ==>
            && (event.None? ==> kind == Bad(UPSTREAM_INVALID_RESPONSE))
            && (event.Some? && !event.value.Obj? ==> kind == Plain)
            && (event.Some? && event.value.Obj? ==>
                  var fields := event.value.fields;
                  && ("error" in fields ==> kind == Bad(UPSTREAM_ERROR))
                  && ("error" !in fields && "usage" !in fields ==> kind == Plain)
                  && ("error" !in fields && "usage" in fields ==>
                        match ExtractUsage(event.value)
                        case Ok(u) => kind == Counted(u)
                        case Err(e) => kind == BadUsage(e.code))))
  {
    DataIsTrimmed(pad, data, after);
  }

  lemma {:induction false} SizeOfMore(lines: seq<string>, line: string)
    ensures Size([]) == 0 && Size(lines + [line]) == Size(lines) + |line|
  {
    assert (lines + [line])[..|lines|] == lines;
  }

  /** The first write opens the reply; then come the lines before the stop, in order and once each, with the
      key replaced and a newline added. */
  lemma {:induction false} ForwardsInOrder(secret: string, t: Script, n: nat, i: nat)
    requires Proper(t) && secret != "" && n <= |t.lines| && i < n
    ensures |Written(secret, t, n)| >= n + 1 && Written(secret, t, n)[0] == Begin
    ensures Written(secret, t, n)[i + 1] == Line(ReplaceAll(t.lines[i], secret, "[REDACTED]") + "\n")
    ensures |Written(secret, t, n)| == n + 1
            || (|Written(secret, t, n)| == n + 2 && n < |t.lines|
                && Written(secret, t, n)[n + 1] == Line(ReplaceAll(t.lines[n], secret, "[REDACTED]") + "\n"))
  {
  }

  /** Up to this line the reply is at most 32 MiB, the line is not bad, and it is written. */
  ghost predicate Fine(parse: string -> Option<Json>, lines: seq<string>, fails: nat -> Option<Code>, i: nat)
    requires i < |lines|
  {
    && Size(lines[..i + 1]) <= 33_554_432
    && !LineKind(parse, lines[i]).Bad? && !LineKind(parse, lines[i]).BadUsage?
    && fails(i + 1).None?
  }

  lemma {:induction false} FineIff(parse: string -> Option<Json>, r: Reply, fails: nat -> Option<Code>, i: nat)
    requires i < |r.lines|
    ensures Fine(parse, r.lines, fails, i) <==> !Stops(ScriptOf(parse, r, fails), i)
  {
    KindAt(parse, r.lines, i);
  }

  lemma {:induction false} AllFineIff(parse: string -> Option<Json>, r: Reply, fails: nat -> Option<Code>)
    ensures AllFine(ScriptOf(parse, r, fails)) <==> forall i :: 0 <= i < |r.lines| ==> Fine(parse, r.lines, fails, i)
  {
    var t := ScriptOf(parse, r, fails);
    forall i | 0 <= i < |r.lines| ensures Fine(parse, r.lines, fails, i) <==> !Stops(t, i) {
      FineIff(parse, r, fails, i);
    }
  }

  lemma {:induction false} SawDoneIff(parse: string -> Option<Json>, lines: seq<string>)
    ensures SawDone(Kinds(parse, lines)) <==> exists i :: 0 <= i < |lines| && LineKind(parse, lines[i]) == Done
  {
    var kinds := Kinds(parse, lines);
    forall i | 0 <= i < |lines| ensures kinds[i] == LineKind(parse, lines[i]) { KindAt(parse, lines, i); }
    if i :| 0 <= i < |lines| && LineKind(parse, lines[i]) == Done { assert kinds[i].Done?; }
    if i :| 0 <= i < |kinds| && kinds[i].Done? { assert LineKind(parse, lines[i]) == Done; }
  }

  /** A stream succeeds exactly when every line is fine, no error ends the lines, and one of them is the end
      marker. */
  lemma {:induction false} TextSucceedsIff(parse: string -> Option<Json>, secret: string, r: Reply,
                                           fails: nat -> Option<Code>, n: nat, end: StreamEnd, writes: seq<Frame>,
                                           cancelled: bool)
    requires secret != "" && FirstStop(ScriptOf(parse, r, fails), n)
    requires Concludes(secret, ScriptOf(parse, r, fails), r.scanErr, n, end, writes)
    ensures SettleStream(end, cancelled).status == SUCCEEDED <==>
      && (forall i :: 0 <= i < |r.lines| ==> Fine(parse, r.lines, fails, i))
      && r.scanErr.None?
      && exists i :: 0 <= i < |r.lines| && LineKind(parse, r.lines[i]) == Done
  {
    SucceedsIff(secret, ScriptOf(parse, r, fails), r.scanErr, n, end, writes, cancelled);
    AllFineIff(parse, r, fails);
    SawDoneIff(parse, r.lines);
  }

  /** Why a reply did not end well, when line n is the first to stop at: it is too large, the line is bad,
      or its write fails; at the end, the scanner's error or a missing end marker. */
  lemma {:induction false} EndsBecause(parse: string -> Option<Json>, r: Reply, fails: nat -> Option<Code>, n: nat)
    requires FirstStop(ScriptOf(parse, r, fails), n)
    ensures Ending(ScriptOf(parse, r, fails), r.scanErr, n) ==
      if n == |r.lines| then
        (if r.scanErr.Some? then r.scanErr
         else if exists i :: 0 <= i < |r.lines| && LineKind(parse, r.lines[i]) == Done then None
         else Some(UPSTREAM_STREAM_INCOMPLETE))
      else if Size(r.lines[..n + 1]) > 33_554_432 then Some(UPSTREAM_RESPONSE_TOO_LARGE)
      else if LineKind(parse, r.lines[n]).Bad? || LineKind(parse, r.lines[n]).BadUsage? then
        Some(LineKind(parse, r.lines[n]).code)
      else fails(n + 1)
  {
    SawDoneIff(parse, r.lines);
    if n < |r.lines| { KindAt(parse, r.lines, n); }
  }

  /** The usage concluded is that of the last line with usage among those looked into: all before the stop,
      and the one stopped at unless the reply became too large with it. */
  lemma {:induction false} UsageOnText(parse: string -> Option<Json>, lines: seq<string>, n: nat, m: nat, i: nat)
    requires n <= |lines|
    requires m == if n < |lines| && Size(lines[..n + 1]) <= 33_554_432 then n + 1 else n
    requires i < m && (LineKind(parse, lines[i]).Counted? || LineKind(parse, lines[i]).BadUsage?)
    requires forall j :: i < j < m ==> !LineKind(parse, lines[j]).Counted? && !LineKind(parse, lines[j]).BadUsage?
    ensures LastUsage(Kinds(parse, lines)[..Inspected(lines, n)]) ==
      if LineKind(parse, lines[i]).Counted? then LineKind(parse, lines[i]).usage else NO_USAGE
  {
    var kinds := Kinds(parse, lines);
    LastOnText(parse, lines, kinds, m, i);
    KindAt(parse, lines, i);
    UsageIsLast(kinds[..m], i);
  }

  lemma {:induction false} LastOnText(parse: string -> Option<Json>, lines: seq<string>, kinds: seq<Kind>, m: nat,
                                      i: nat)
    requires kinds == Kinds(parse, lines) && i < m <= |lines|
    requires LineKind(parse, lines[i]).Counted? || LineKind(parse, lines[i]).BadUsage?
    requires forall j :: i < j < m ==> !LineKind(parse, lines[j]).Counted? && !LineKind(parse, lines[j]).BadUsage?
    ensures LastUsageAt(kinds[..m], i)
  {
    KindAt(parse, lines, i);
    forall j | i < j < m ensures !kinds[j].Counted? && !kinds[j].BadUsage? { KindAt(parse, lines, j); }
  }

  ghost predicate LastUsageAt(kinds: seq<Kind>, i: nat) {
    && i < |kinds| && (kinds[i].Counted? || kinds[i].BadUsage?)
    && forall j :: i < j < |kinds| ==> !kinds[j].Counted? && !kinds[j].BadUsage?
  }

  /** The usage that is recorded is that of the last usage event looked into, zero if that one was bad
      or there was none. */
  lemma {:induction false} UsageIsLast(kinds: seq<Kind>, i: nat)
    ensures LastUsageAt(kinds, i) ==> LastUsage(kinds) == if kinds[i].Counted? then kinds[i].usage else NO_USAGE
    ensures (forall j :: 0 <= j < |kinds| ==> !kinds[j].Counted? && !kinds[j].BadUsage?) ==>
              LastUsage(kinds) == NO_USAGE
  {
    if kinds != [] && !kinds[|kinds| - 1].Counted? && !kinds[|kinds| - 1].BadUsage? {
      UsageIsLast(kinds[..|kinds| - 1], i);
    }
  }

  lemma {:induction false} EndsClean(text: string, p: string)
    requires p != "" && '\n' !in p && !Contains(text, p)
    ensures !Contains(text + "\n", p)
  {
    var s := text + "\n";
    forall i: nat | OccursAt(s, p, i) ensures OccursAt(text, p, i) {
      assert p[|p| - 1] == s[i + |p| - 1];
      assert text[i..i + |p|] == s[i..i + |p|];
    }
  }

  /** Nothing written to the client contains the key that the call was made with. */
  lemma {:induction false} NoKeyIsForwarded(secret: string, t: Script, n: nat, k: nat)
    requires Proper(t) && n <= |t.lines| && secret != "" && '\n' !in secret && Redact.Scrubbable(secret)
    requires k < |Written(secret, t, n)| && Written(secret, t, n)[k].Line?
    ensures !Contains(Written(secret, t, n)[k].text, secret)
  {
    var line := t.lines[k - 1];
    assert Written(secret, t, n)[k] == Redacted(secret, line);
    Redact.ReplaceRemoves(line, secret, secret);
    EndsClean(ReplaceAll(line, secret, Redact.TAG), secret);
  }
}
