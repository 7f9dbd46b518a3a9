/**
  The serial command line (SerialInterface): characters from a stream are
  collected in a 50-character line buffer, a line is dispatched when a
  terminator arrives, and a full buffer without terminator is discarded.
  A line is dispatched on its first character through a map from command
  keys to registered handlers.

  What a handler does (parse a number, set a variable, print, run a nested
  interface) is not modelled: the model records which entry was selected
  and the rest of the line it was given.
*/
module SerialCommands {

  /** The size of the line buffer. */
  const BufferSize: nat := 50

  /** isTerminator: the characters that end a command line. */
  predicate IsTerminator(c: char)
    ensures IsTerminator(c) ==> c == ';' || c < ' '
  {
    c == '\0' || c == '\n' || c == '\r' || c == ';'
  }

  /** The kind of handler a map entry holds (FunctionType). */
  datatype FunctionType = CharPointer | MemberCharPointer | Float | Int | SetFloat | SetInt

  /** What a map entry points at: a function or variable supplied by the caller
      (known only by its address), or a member or static function of
      SerialInterface itself. */
  datatype Target = Pointer(addr: nat) | Member(name: string) | Builtin(name: string)

  /** One entry of fun_map. */
  datatype Function = Function(typ: FunctionType, target: Target, help: string, si: SerialInterface?, subcommand: bool)

  /** What run(char*) does with a line. */
  datatype Decision =
    | Ignore                                  // the line starts with a terminator
    | UnknownCommand(key: char)               // no entry for the first character
    | Invoke(fun: Function, arg: seq<char>)   // the entry's handler gets the rest of the line

  /** run(char*): dispatch a line on its first character. An empty line is
      an empty C string, whose first character is the terminator '\0'. */
  function Dispatch(funMap: map<char, Function>, line: seq<char>): (d: Decision)
    ensures d == Ignore <==> line == [] || IsTerminator(line[0])
    ensures d.UnknownCommand? <==> line != [] && !IsTerminator(line[0]) && line[0] !in funMap
    ensures d.Invoke? ==> line != [] && line[0] in funMap && d.fun == funMap[line[0]] && d.arg == line[1..]
  {
    if line == [] || IsTerminator(line[0]) then Ignore
    else if line[0] !in funMap then UnknownCommand(line[0])
    else Invoke(funMap[line[0]], line[1..])
  }

  /** The decisions for a series of lines. */
  function DispatchAll(funMap: map<char, Function>, lines: seq<seq<char>>): seq<Decision>
  {
    seq(|lines|, i requires 0 <= i < |lines| => Dispatch(funMap, lines[i]))
  }

  /** Dispatching one more line appends one more decision. */
  lemma DispatchAllAppend(funMap: map<char, Function>, lines: seq<seq<char>>, line: seq<char>)
    ensures DispatchAll(funMap, lines + [line]) == DispatchAll(funMap, lines) + [Dispatch(funMap, line)]
  {
  }

  /** After an entry is registered under `key`, a line starting with `key`
      selects that entry, and a line starting with any other key is
      dispatched as before. */
  lemma DispatchAfterAdd(funMap: map<char, Function>, key: char, f: Function, line: seq<char>)
    requires |line| > 0
    ensures line[0] == key && !IsTerminator(key) ==> Dispatch(funMap[key := f], line) == Invoke(f, line[1..])
    ensures line[0] != key ==> Dispatch(funMap[key := f], line) == Dispatch(funMap, line)
  {
  }

  /** The line buffer, its fill index, the lines dispatched and the number of
      characters taken from the stream. */
  datatype FeedResult = FeedResult(buf: seq<char>, bufi: nat, lines: seq<seq<char>>, consumed: nat)

  /** The loop of run(): while characters are available and the buffer is not
      full, store the next one at `bufi` and advance; on a terminator, dispatch
      the whole buffer and start over at 0. */
  function Feed(buf: seq<char>, bufi: nat, input: seq<char>): (r: FeedResult)
    requires |buf| == BufferSize
    ensures |r.buf| == BufferSize && r.consumed <= |input|
    decreases |input|
  {
    if input == [] || bufi >= BufferSize then FeedResult(buf, bufi, [], 0)
    else
      var c := input[0];
      var buf' := buf[bufi := c];
      if IsTerminator(c) then
        var r := Feed(buf', 0, input[1..]);
        FeedResult(r.buf, r.bufi, [buf'] + r.lines, r.consumed + 1)
      else
        var r := Feed(buf', bufi + 1, input[1..]);
        FeedResult(r.buf, r.bufi, r.lines, r.consumed + 1)
  }

  /** `r` with `lines` dispatched and `k` characters taken before it. */
  function Shift(lines: seq<seq<char>>, k: nat, r: FeedResult): FeedResult
  {
    FeedResult(r.buf, r.bufi, lines + r.lines, k + r.consumed)
  }

  /** Two shifts in a row are one. */
  lemma ShiftShift(l1: seq<seq<char>>, k1: nat, l2: seq<seq<char>>, k2: nat, r: FeedResult)
    ensures Shift(l1, k1, Shift(l2, k2, r)) == Shift(l1 + l2, k1 + k2, r)
  {
    assert l1 + (l2 + r.lines) == (l1 + l2) + r.lines;
  }

  /** One step of the loop of run(). */
  lemma FeedStep(buf: seq<char>, bufi: nat, input: seq<char>)
    requires |buf| == BufferSize && input != [] && bufi < BufferSize
    ensures var buf' := buf[bufi := input[0]];
            Feed(buf, bufi, input)
            == if IsTerminator(input[0]) then Shift([buf'], 1, Feed(buf', 0, input[1..]))
               else Shift([], 1, Feed(buf', bufi + 1, input[1..]))
  {
  }

  /** The number of terminators in `s`. */
  function Terminators(s: seq<char>): nat
  {
    if s == [] then 0 else (if IsTerminator(s[0]) then 1 else 0) + Terminators(s[1..])
  }

  /** Starting in range, the index stays within the buffer, and the loop stops
      early only on a full buffer. */
  lemma {:induction false} FeedIndexInRange(buf: seq<char>, bufi: nat, input: seq<char>)
    requires |buf| == BufferSize && bufi <= BufferSize
    ensures Feed(buf, bufi, input).bufi <= BufferSize
    ensures Feed(buf, bufi, input).bufi < BufferSize ==> Feed(buf, bufi, input).consumed == |input|
    decreases |input|
  {
    if input != [] && bufi < BufferSize {
      var buf' := buf[bufi := input[0]];
      if IsTerminator(input[0]) {
        FeedIndexInRange(buf', 0, input[1..]);
      } else {
        FeedIndexInRange(buf', bufi + 1, input[1..]);
      }
    }
  }

  /** Exactly one line is dispatched per terminator consumed. */
  lemma {:induction false} FeedLinePerTerminator(buf: seq<char>, bufi: nat, input: seq<char>)
    requires |buf| == BufferSize
    ensures var r := Feed(buf, bufi, input); |r.lines| == Terminators(input[..r.consumed])
    decreases |input|
  {
    if input != [] && bufi < BufferSize {
      var buf' := buf[bufi := input[0]];
      var next := if IsTerminator(input[0]) then 0 else bufi + 1;
      FeedLinePerTerminator(buf', next, input[1..]);
      var r := Feed(buf', next, input[1..]);
      assert input[..r.consumed + 1][1..] == input[1..][..r.consumed];
    } else {
      assert input[..0] == [];
    }
  }

  /** A command of fewer than 50 characters without terminator, followed by a
      terminator, is dispatched as the buffer holding the command and the
      terminator from where the index stood. */
  lemma {:induction false} FeedFramesLine(buf: seq<char>, bufi: nat, w: seq<char>, t: char, rest: seq<char>)
    requires |buf| == BufferSize && bufi + |w| < BufferSize
    requires forall i :: 0 <= i < |w| ==> !IsTerminator(w[i])
    requires IsTerminator(t)
    ensures var r := Feed(buf, bufi, w + [t] + rest);
            && r.lines != [] && |r.lines[0]| == BufferSize
            && r.lines[0][..bufi] == buf[..bufi]
            && r.lines[0][bufi..bufi + |w| + 1] == w + [t]
    decreases |w|
  {
    var input := w + [t] + rest;
    var buf' := buf[bufi := input[0]];
    if w == [] {
      assert input[0] == t;
    } else {
      assert input[1..] == w[1..] + [t] + rest;
      FeedFramesLine(buf', bufi + 1, w[1..], t, rest);
      var line := Feed(buf', bufi + 1, input[1..]).lines[0];
      assert Feed(buf, bufi, input).lines[0] == line;
      assert line[..bufi + 1] == buf'[..bufi + 1];
      assert line[bufi] == line[..bufi + 1][bufi] == buf'[bufi] == w[0];
      assert line[..bufi] == line[..bufi + 1][..bufi] == buf'[..bufi + 1][..bufi] == buf[..bufi];
      assert line[bufi + 1..bufi + |w| + 1] == w[1..] + [t];
      assert line[bufi..bufi + |w| + 1] == [line[bufi]] + line[bufi + 1..bufi + |w| + 1];
      assert w + [t] == [w[0]] + (w[1..] + [t]);
    }
  }

  /** A command of fewer than 50 characters typed into an empty buffer and
      ended by a terminator selects the entry of its first character with the
      rest of the command and the terminator as its argument, or is reported
      unknown when that character has no entry. */
  lemma CommandLineSelectsEntry(funMap: map<char, Function>, buf: seq<char>, w: seq<char>, t: char, rest: seq<char>)
    requires |buf| == BufferSize && 0 < |w| < BufferSize
    requires forall i :: 0 <= i < |w| ==> !IsTerminator(w[i])
    requires IsTerminator(t)
    ensures var lines := Feed(buf, 0, w + [t] + rest).lines;
            && lines != [] && |lines[0]| == BufferSize
            && (w[0] in funMap ==>
                  Dispatch(funMap, lines[0]).Invoke?
                  && Dispatch(funMap, lines[0]).fun == funMap[w[0]]
                  && Dispatch(funMap, lines[0]).arg[..|w|] == w[1..] + [t])
            && (w[0] !in funMap ==> Dispatch(funMap, lines[0]) == UnknownCommand(w[0]))
  {
    FeedFramesLine(buf, 0, w, t, rest);
    var line := Feed(buf, 0, w + [t] + rest).lines[0];
    assert line[0..|w| + 1] == w + [t];
    assert line[0] == w[0];
    assert line[1..][..|w|] == line[1..|w| + 1] == (w + [t])[1..] == w[1..] + [t];
  }

  /** Characters without a terminator that fill the rest of the buffer are
      never dispatched and stop the loop with the index at 50, where run()
      discards the buffer. */
  lemma {:induction false} FeedOverflow(buf: seq<char>, bufi: nat, input: seq<char>)
    requires |buf| == BufferSize && bufi <= BufferSize && |input| >= BufferSize - bufi
    requires forall i :: 0 <= i < BufferSize - bufi ==> !IsTerminator(input[i])
    ensures var r := Feed(buf, bufi, input);
            r.lines == [] && r.bufi == BufferSize && r.consumed == BufferSize - bufi
    decreases BufferSize - bufi
  {
    if bufi < BufferSize {
      FeedOverflow(buf[bufi := input[0]], bufi + 1, input[1..]);
    }
  }

  class SerialInterface {
    /** name. */
    const name: char
    /** Whether the stream pointer s is set. */
    const hasStream: bool

    /** fun_map. */
    var funMap: map<char, Function>
    /** buffer. */
    var buffer: array<char>
    /** bufi. */
    var bufi: nat
    /** The decisions run() has taken for the lines it dispatched, in order. */
    var dispatched: seq<Decision>

    ghost predicate Valid()
      reads this
    {
      buffer.Length == BufferSize
    }

    /** The constructor sets the stream and the name only; bufi is whatever
        the memory held (`bufi` here). */
    constructor (hasStream: bool, name: char, bufi: nat)
      ensures Valid() && fresh(buffer)
      ensures this.hasStream == hasStream && this.name == name && this.bufi == bufi
      ensures funMap == map[] && dispatched == []
    {
      this.hasStream := hasStream;
      this.name := name;
      this.bufi := bufi;
      funMap := map[];
      buffer := new char[BufferSize](_ => '\0');
      dispatched := [];
    }

    /** add(command, void (*)(char*), help). */
    method AddCharPointer(command: char, fn: nat, help: string)
      modifies this`funMap
      ensures funMap == old(funMap)[command := Function(CharPointer, Pointer(fn), help, this, false)]
    {
      funMap := funMap[command := Function(CharPointer, Pointer(fn), help, this, false)];
    }

    /** add(command, void (*)(float), help). */
    method AddFloat(command: char, fn: nat, help: string)
      modifies this`funMap
      ensures funMap == old(funMap)[command := Function(Float, Pointer(fn), help, this, false)]
    {
      funMap := funMap[command := Function(Float, Pointer(fn), help, this, false)];
    }

    /** add(command, void (*)(int), help). */
    method AddInt(command: char, fn: nat, help: string)
      modifies this`funMap
      ensures funMap == old(funMap)[command := Function(Int, Pointer(fn), help, this, false)]
    {
      funMap := funMap[command := Function(Int, Pointer(fn), help, this, false)];
    }

    /** add(command, float*, help). */
    method AddSetFloat(command: char, variable: nat, help: string)
      modifies this`funMap
      ensures funMap == old(funMap)[command := Function(SetFloat, Pointer(variable), help, this, false)]
    {
      funMap := funMap[command := Function(SetFloat, Pointer(variable), help, this, false)];
    }

    /** add(command, int*, help). */
    method AddSetInt(command: char, variable: nat, help: string)
      modifies this`funMap
      ensures funMap == old(funMap)[command := Function(SetInt, Pointer(variable), help, this, false)]
    {
      funMap := funMap[command := Function(SetInt, Pointer(variable), help, this, false)];
    }

    /** add(command, member function, si, help). */
    method AddMember(command: char, member: string, si: SerialInterface?, help: string)
      modifies this`funMap
      ensures funMap == old(funMap)[command := Function(MemberCharPointer, Member(member), help, si, false)]
    {
      funMap := funMap[command := Function(MemberCharPointer, Member(member), help, si, false)];
    }

    /** add(command, si, help): a nested interface whose run(char*) gets the
        rest of the line; the entry is marked as a subcommand. */
    method AddSubcommand(command: char, si: SerialInterface?, help: string)
      modifies this`funMap
      ensures funMap == old(funMap)[command := Function(MemberCharPointer, Member("run"), help, si, true)]
    {
      AddMember(command, "run", si, help);
      funMap := funMap[command := funMap[command].(subcommand := true)];
    }

    /** initFuns: '?' prints the help, 'e' echoes, and 'v' and '#' print the
        firmware and protocol versions when those are defined at build time. */
    method InitFuns(hasVersion: bool, hasProtocolVersion: bool)
      modifies this`funMap
      ensures var common := old(funMap)['?' := Function(MemberCharPointer, Member("printHelp"), "Print commands", this, false)]
                                       ['e' := Function(CharPointer, Builtin("echo"), "Echo", this, false)];
              var withVersion := if hasVersion then common['v' := Function(CharPointer, Builtin("printVersion"), "Version", this, false)]
                                 else common;
              funMap == if hasProtocolVersion
                        then withVersion['#' := Function(CharPointer, Builtin("printProtocolVersion"), "Protocol version", this, false)]
                        else withVersion
    {
      AddMember('?', "printHelp", this, "Print commands");
      funMap := funMap['e' := Function(CharPointer, Builtin("echo"), "Echo", this, false)];
      if hasVersion {
        funMap := funMap['v' := Function(CharPointer, Builtin("printVersion"), "Version", this, false)];
      }
      if hasProtocolVersion {
        funMap := funMap['#' := Function(CharPointer, Builtin("printProtocolVersion"), "Protocol version", this, false)];
      }
    }

    /** One iteration of the loop of run(): store `c` at `bufi` and advance;
        on a terminator, dispatch the buffer and start over at 0. */
    method Accept(c: char)
      requires Valid() && bufi < BufferSize
      modifies this`bufi, this`dispatched, buffer
      ensures Valid()
      ensures buffer[..] == old(buffer[..])[old(bufi) := c]
      ensures IsTerminator(c) ==> bufi == 0 && dispatched == old(dispatched) + [Dispatch(funMap, buffer[..])]
      ensures !IsTerminator(c) ==> bufi == old(bufi) + 1 && dispatched == old(dispatched)
    {
      buffer[bufi] := c;
      bufi := bufi + 1;
      if IsTerminator(c) {
        dispatched := dispatched + [Dispatch(funMap, buffer[..])];
        bufi := 0;
      }
    }

    /** The loop of run(): while characters are available and the buffer is
        not full, accept the next one. Returns the number of characters taken. */
    method Pump(input: seq<char>) returns (consumed: nat)
      requires Valid()
      modifies this`bufi, this`dispatched, buffer
      ensures Valid()
      ensures var r := Feed(old(buffer[..]), old(bufi), input);
              && consumed == r.consumed
              && buffer[..] == r.buf
              && bufi == r.bufi
              && dispatched == old(dispatched) + DispatchAll(funMap, r.lines)
    {
      ghost var lines: seq<seq<char>> := [];
      consumed := 0;
      while consumed < |input| && bufi < BufferSize
        invariant consumed <= |input|
        invariant Feed(old(buffer[..]), old(bufi), input) == Shift(lines, consumed, Feed(buffer[..], bufi, input[consumed..]))
        invariant dispatched == old(dispatched) + DispatchAll(funMap, lines)
        decreases |input| - consumed
      {
        ghost var rest := input[consumed..];
        FeedStep(buffer[..], bufi, rest);
        var c := input[consumed];
        assert rest[1..] == input[consumed + 1..];
        Accept(c);
        consumed := consumed + 1;
        if IsTerminator(c) {
          ShiftShift(lines, consumed - 1, [buffer[..]], 1, Feed(buffer[..], 0, input[consumed..]));
          DispatchAllAppend(funMap, lines, buffer[..]);
          lines := lines + [buffer[..]];
        } else {
          ShiftShift(lines, consumed - 1, [], 1, Feed(buffer[..], bufi, input[consumed..]));
          assert lines + [] == lines;
        }
      }
      assert Feed(buffer[..], bufi, input[consumed..]) == FeedResult(buffer[..], bufi, [], 0);
      assert lines + [] == lines;
    }

    /** run(): take characters from the stream while there are any and the
        buffer is not full, dispatching on each terminator; a buffer that
        filled up without one is discarded. Returns the number of characters
        taken. Without a stream nothing happens. */
    method Run(input: seq<char>) returns (consumed: nat)
      requires Valid()
      modifies this`bufi, this`dispatched, buffer
      ensures Valid()
      ensures !hasStream ==>
                consumed == 0 && bufi == old(bufi) && buffer[..] == old(buffer[..]) && dispatched == old(dispatched)
      ensures hasStream ==>
                var r := Feed(old(buffer[..]), old(bufi), input);
                && consumed == r.consumed
                && buffer[..] == r.buf
                && bufi == (if r.bufi == BufferSize then 0 else r.bufi)
                && dispatched == old(dispatched) + DispatchAll(funMap, r.lines)
      ensures hasStream && old(bufi) <= BufferSize ==> bufi < BufferSize
    {
      if !hasStream {
        return 0;
      }
      consumed := Pump(input);
      if bufi == BufferSize {
        bufi := 0;
      }
      if old(bufi) <= BufferSize {
        FeedIndexInRange(old(buffer[..]), old(bufi), input);
      }
    }
  }

}
