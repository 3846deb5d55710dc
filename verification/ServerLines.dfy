/**
 The server's line assembler: it takes characters as they come and dispatches a
 command at each end of line. Lines is what the stream means, taken as a whole.
 */
module ServerLines {
  import opened Basics

  const RCV_CMD_LEN := 134

  predicate Eol(c: char) {
    c == 13 as char || c == 10 as char
  }

  predicate Printable(c: char) {
    32 as char <= c <= 126 as char
  }

  // ---------------------------------------------------------------- what a stream means

  function FirstEol(s: string): (i: nat)
    ensures i <= |s|
    ensures forall k :: 0 <= k < i ==> !Eol(s[k])
    ensures i < |s| ==> Eol(s[i])
  {
    if s == "" || Eol(s[0]) then 0 else 1 + FirstEol(s[1..])
  }

  // The lines that are ended; what follows the last end of line is not one yet.
  function Lines(s: string): seq<string>
    decreases |s|
  {
    var i := FirstEol(s);
    if i == |s| then [] else [s[..i]] + Lines(s[i + 1..])
  }

  predicate AllPrintable(line: string) {
    forall k :: 0 <= k < |line| ==> Printable(line[k])
  }

  predicate Acceptable(line: string) {
    0 < |line| <= RCV_CMD_LEN && AllPrintable(line)
  }

  // The acceptable lines, in order, up to and including the first QU.
  function Commands(lines: seq<string>): seq<string> {
    if lines == [] then []
    else if !Acceptable(lines[0]) then Commands(lines[1..])
    else if lines[0] == "QU" then ["QU"]
    else [lines[0]] + Commands(lines[1..])
  }

  // ---------------------------------------------------------------- the assembler as a function

  datatype Asm = Asm(line: string, bad: bool)

  const CLEAN := Asm("", false)

  // One character that does not end a line.
  function Eat(a: Asm, c: char): Asm {
    if !Printable(c) then a.(bad := true)
    else if a.bad then a
    else if |a.line| < RCV_CMD_LEN then a.(line := a.line + [c])
    else a.(bad := true)
  }

  // The assembler has seen this much of a line.
  predicate Seen(a: Asm, line: string) {
    if |line| <= RCV_CMD_LEN && AllPrintable(line) then a == Asm(line, false) else a.bad
  }

  lemma EatSees(a: Asm, line: string, c: char)
    requires Seen(a, line)
    ensures Seen(Eat(a, c), line + [c])
  {
    var l1 := line + [c];
    assert l1[|line|] == c;
    assert AllPrintable(l1) ==> AllPrintable(line) by {
      if AllPrintable(l1) {
        forall k | 0 <= k < |line| ensures Printable(line[k]) { assert l1[k] == line[k]; }
      }
    }
  }

  // What a stream makes the assembler dispatch, from any state, and whether it quit.
  datatype Out = Out(a: Asm, done: seq<string>, quit: bool)

  function Next(a: Asm, c: char): Out {
    if Eol(c) then
      if !a.bad && |a.line| > 0 then Out(CLEAN, [a.line], a.line == "QU") else Out(CLEAN, [], false)
    else Out(Eat(a, c), [], false)
  }

  function Assemble(a: Asm, s: string): Out
    decreases |s|
  {
    if s == "" then Out(a, [], false)
    else
      var o := Next(a, s[0]);
      if o.quit then o
      else
        var rest := Assemble(o.a, s[1..]);
        Out(rest.a, o.done + rest.done, rest.quit)
  }

  // From a state that has seen `line` the assembler dispatches what the whole stream,
  // `line` included, means.
  lemma {:induction false} AssembleIsCommands(a: Asm, line: string, s: string)
    requires Seen(a, line) && forall k :: 0 <= k < |line| ==> !Eol(line[k])
    ensures Assemble(a, s).done == Commands(Lines(line + s))
    decreases |s|
  {
    if s == "" {
      assert line + s == line;
      NoEol(line, "");
    } else {
      assert line + s == (line + [s[0]]) + s[1..];
      if Eol(s[0]) {
        LinesAt(line, s);
        AssembleIsCommands(CLEAN, "", s[1..]);
        assert "" + s[1..] == s[1..];
        EndOfLine(a, line, s);
      } else {
        EatSees(a, line, s[0]);
        AssembleIsCommands(Eat(a, s[0]), line + [s[0]], s[1..]);
        assert [] + Assemble(Eat(a, s[0]), s[1..]).done == Assemble(Eat(a, s[0]), s[1..]).done;
      }
    }
  }

  // At the end of a line, an acceptable one is dispatched.
  lemma EolDispatches(a: Asm, line: string, c: char)
    requires Seen(a, line) && Eol(c)
    ensures Next(a, c) == Out(CLEAN, if Acceptable(line) then [line] else [], Acceptable(line) && line == "QU")
  {
  }

  lemma CommandsFirst(line: string, rest: seq<string>)
    ensures Commands([line] + rest) ==
      (if !Acceptable(line) then Commands(rest) else if line == "QU" then [line] else [line] + Commands(rest))
  {
    assert ([line] + rest)[1..] == rest;
  }

  lemma EndOfLine(a: Asm, line: string, s: string)
    requires Seen(a, line) && s != "" && Eol(s[0]) && Lines(line + s) == [line] + Lines(s[1..])
    requires Assemble(CLEAN, s[1..]).done == Commands(Lines(s[1..]))
    ensures Assemble(a, s).done == Commands(Lines(line + s))
  {
    EolDispatches(a, line, s[0]);
    CommandsFirst(line, Lines(s[1..]));
    assert [] + Commands(Lines(s[1..])) == Commands(Lines(s[1..]));
  }

  lemma {:induction false} NoEol(line: string, s: string)
    requires forall k :: 0 <= k < |line| ==> !Eol(line[k])
    ensures FirstEol(line + s) == |line| + FirstEol(s)
  {
    if line == "" {
      assert line + s == s;
    } else {
      assert (line + s)[0] == line[0] && (line + s)[1..] == line[1..] + s;
      NoEol(line[1..], s);
    }
  }

  lemma LinesAt(line: string, s: string)
    requires s != "" && Eol(s[0]) && forall k :: 0 <= k < |line| ==> !Eol(line[k])
    ensures Lines(line + s) == [line] + Lines(s[1..])
  {
    NoEol(line, s);
    assert (line + s)[..|line|] == line && (line + s)[|line| + 1..] == s[1..];
  }

  // A clean assembler dispatches exactly the commands of the stream.
  lemma DispatchedAreTheCommands(s: string)
    ensures Assemble(CLEAN, s).done == Commands(Lines(s))
  {
    AssembleIsCommands(CLEAN, "", s);
    assert "" + s == s;
  }

  lemma {:induction false} AssembleSplit(a: Asm, s: string, t: string)
    ensures Assemble(a, s + t) ==
      var o := Assemble(a, s);
      if o.quit then o
      else var rest := Assemble(o.a, t); Out(rest.a, o.done + rest.done, rest.quit)
    decreases |s|
  {
    if s == "" {
      assert s + t == t;
      assert [] + Assemble(a, t).done == Assemble(a, t).done;
    } else {
      assert (s + t)[0] == s[0] && (s + t)[1..] == s[1..] + t;
      var o := Next(a, s[0]);
      if !o.quit {
        AssembleSplit(o.a, s[1..], t);
        var o1 := Assemble(o.a, s[1..]);
        if !o1.quit {
          var rest := Assemble(o1.a, t);
          assert o.done + (o1.done + rest.done) == (o.done + o1.done) + rest.done;
        }
      }
    }
  }

  lemma AssembleOne(a: Asm, c: char)
    ensures Assemble(a, [c]) == Next(a, c)
  {
    assert [c][1..] == "";
    assert Next(a, c).done + [] == Next(a, c).done;
  }

  // One turn of the receive loop: whether the device was detached by then, what the client
  // sent, nothing if it has closed the channel, and whether the responses could be sent.
  datatype Round = Round(detached: bool, chunk: string, flushed: bool)

  // All that the server reads before it stops listening.
  function Heard(rounds: seq<Round>): string {
    if rounds == [] || rounds[0].detached || rounds[0].chunk == "" then ""
    else if !rounds[0].flushed then rounds[0].chunk
    else rounds[0].chunk + Heard(rounds[1..])
  }

  lemma HeardRound(rounds: seq<Round>, n: nat, s: string)
    requires n < |rounds| && Heard(rounds) == s + Heard(rounds[n..])
    ensures var r := rounds[n];
      Heard(rounds) ==
        if r.detached || r.chunk == "" then s
        else (s + r.chunk) + (if r.flushed then Heard(rounds[n + 1..]) else "")
  {
    assert rounds[n..][1..] == rounds[n + 1..];
  }

  // ---------------------------------------------------------------- the client connection

  class Client {
    const rcvCmd: array<char>
    var rcvCmdSi: nat
    var rcvCmdError: bool
    var reqExit: bool
    var dispatched: seq<string>

    ghost predicate Valid()
      reads this
    {
      rcvCmd.Length == RCV_CMD_LEN && rcvCmdSi <= RCV_CMD_LEN
    }

    ghost function Abs(): Asm
      requires Valid()
      reads this, rcvCmd
    {
      Asm(rcvCmd[..rcvCmdSi], rcvCmdError)
    }

    constructor ()
      ensures Valid() && fresh(rcvCmd) && !reqExit && dispatched == []
    {
      rcvCmd := new char[RCV_CMD_LEN];
      rcvCmdSi, rcvCmdError, reqExit, dispatched := 0, false, false, [];
    }

    // Parsing and executing is the business of the commands; QU with nothing behind it
    // asks the server to quit.
    method ProcessRcvCmd()
      requires Valid()
      modifies this`reqExit, this`dispatched
      ensures dispatched == old(dispatched) + [rcvCmd[..rcvCmdSi]]
      ensures reqExit == (old(reqExit) || rcvCmd[..rcvCmdSi] == "QU")
    {
      dispatched := dispatched + [rcvCmd[..rcvCmdSi]];
      if rcvCmdSi == 2 && rcvCmd[0] == 'Q' && rcvCmd[1] == 'U' {
        reqExit := true;
      }
    }

    method EatChar(c: char)
      requires Valid() && !Eol(c)
      modifies this`rcvCmdSi, this`rcvCmdError, rcvCmd
      ensures Valid() && Abs() == Eat(old(Abs()), c)
    {
      if 32 as char <= c <= 126 as char {
        if !rcvCmdError {
          if rcvCmdSi < RCV_CMD_LEN {
            ghost var was := rcvCmd[..rcvCmdSi];
            rcvCmd[rcvCmdSi] := c;
            rcvCmdSi := rcvCmdSi + 1;
            assert rcvCmd[..rcvCmdSi] == was + [c];
          } else {
            rcvCmdError := true;
          }
        }
      } else {
        rcvCmdError := true;
      }
    }

    method EndLine()
      requires Valid() && !reqExit
      modifies this
      ensures Valid() && dispatched == old(dispatched) + Next(old(Abs()), 10 as char).done
      ensures reqExit == Next(old(Abs()), 10 as char).quit
      ensures !reqExit ==> Abs() == CLEAN
    {
      assert dispatched + [] == dispatched;
      if !rcvCmdError {
        if rcvCmdSi > 0 {
          ProcessRcvCmd();
          if reqExit { return; }
        }
      }
      rcvCmdSi := 0;
      rcvCmdError := false;
    }

    // One receive's worth of characters.
    method Receive(chunk: string)
      requires Valid() && !reqExit
      modifies this, rcvCmd
      ensures Valid() && dispatched == old(dispatched) + Assemble(old(Abs()), chunk).done
      ensures reqExit == Assemble(old(Abs()), chunk).quit
      ensures !reqExit ==> Abs() == Assemble(old(Abs()), chunk).a
    {
      ghost var a0 := Abs();
      assert dispatched + [] == dispatched;
      var i := 0;
      while i < |chunk|
        invariant 0 <= i <= |chunk| && Valid() && !reqExit
        invariant Assemble(a0, chunk[..i]) == Out(Abs(), Assemble(a0, chunk[..i]).done, false)
        invariant dispatched == old(dispatched) + Assemble(a0, chunk[..i]).done
      {
        var c := chunk[i];
        ghost var done, a := Assemble(a0, chunk[..i]).done, Abs();
        AssembleSplit(a0, chunk[..i], [c]);
        AssembleOne(a, c);
        assert chunk[..i] + [c] == chunk[..i + 1];
        Associative(old(dispatched), done, Next(a, c).done);
        if c == 13 as char || c == 10 as char {
          EndLine();
          if reqExit {
            AssembleSplit(a0, chunk[..i + 1], chunk[i + 1..]);
            assert chunk[..i + 1] + chunk[i + 1..] == chunk;
            return;
          }
        } else {
          EatChar(c);
          assert done + [] == done;
        }
        i := i + 1;
      }
      assert chunk[..i] == chunk;
    }

    // The receive loop: however the stream is cut, the commands of all that is heard are
    // dispatched, in order, and nothing after a QU.
    method MainClient(rounds: seq<Round>)
      requires Valid() && !reqExit && dispatched == []
      modifies this, rcvCmd
      ensures Valid() && dispatched == Commands(Lines(Heard(rounds)))
    {
      rcvCmdSi := 0;
      rcvCmdError := false;
      DispatchedAreTheCommands(Heard(rounds));
      ghost var s := "";
      assert s + Heard(rounds) == Heard(rounds) && rounds[0..] == rounds;
      var n := 0;
      while n < |rounds|
        invariant 0 <= n <= |rounds| && Valid() && !reqExit
        invariant Assemble(CLEAN, s) == Out(Abs(), dispatched, false)
        invariant Heard(rounds) == s + Heard(rounds[n..])
        decreases |rounds| - n
      {
        var r := rounds[n];
        HeardRound(rounds, n, s);
        if r.detached { return; }
        if r.chunk == "" { break; }
        ghost var before := s;
        s := s + r.chunk;
        Receive(r.chunk);
        AssembleSplit(CLEAN, before, r.chunk);
        if reqExit {
          ghost var rest := if r.flushed then Heard(rounds[n + 1..]) else "";
          AssembleSplit(CLEAN, s, rest);
          return;
        }
        if !r.flushed { break; }
        n := n + 1;
      }
      assert s + "" == s;
    }
  }
}
