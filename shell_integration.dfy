/**
 * The terminal addon of src/xterm/shellIntegrationAddon.ts.  It keeps the
 * working directory reported by `OSC 7` and `OSC 1337 ; CurrentDir=…`, and
 * a list of semantic zones built from the FinalTerm marks `OSC 133 ; A|B|C|D`
 * (prompt, command, output, finished), each starting at the cursor line and
 * ending just above the next mark that closes it.
 *
 * The zone the source calls current is always the last one pushed, so the
 * model keeps it as the last element of `zones`.
 */
module ShellIntegration {
  import opened Wrappers
  import opened JsStrings
  import opened OscPayloads

  datatype ZoneKind = PromptStart | CommandStart | CommandExecuted | CommandFinished

  /** `SemanticZone`; only a `CommandFinished` zone carries an exit code. */
  datatype SemanticZone = SemanticZone(kind: ZoneKind, startLine: int, endLine: Option<int>, exitCode: Option<string>)

  /** The FinalTerm command letters. */
  function KindOf(command: string): (r: Option<ZoneKind>)
    ensures r.Some? <==> command in {"A", "B", "C", "D"}
  {
    if command == "A" then Some(PromptStart)
    else if command == "B" then Some(CommandStart)
    else if command == "C" then Some(CommandExecuted)
    else if command == "D" then Some(CommandFinished)
    else None
  }

  /** Whether a new mark of kind `next` closes the current zone of kind `cur`. */
  predicate Closes(next: ZoneKind, cur: ZoneKind) {
    match next
    case PromptStart => true
    case CommandStart => cur == PromptStart
    case CommandExecuted => cur == CommandStart
    case CommandFinished => cur == CommandExecuted
  }

  /**
   * The zones after `_handleFinalTermSequence(data)` with the cursor on
   * `line`: for a known command, the current zone is closed on the line
   * above if the command closes it, and a new open zone is pushed.
   */
  function FinalTermZones(zones: seq<SemanticZone>, data: string, line: int): seq<SemanticZone> {
    var kind := KindOf(BeforeFirst(data, ';'));
    if kind.None? then zones
    else
      var closed :=
        if zones != [] && Closes(kind.value, zones[|zones| - 1].kind)
        then zones[|zones| - 1 := zones[|zones| - 1].(endLine := Some(line - 1))]
        else zones;
      var exitCode := if kind.value == CommandFinished then SplitTwo(data, ';').1 else None;
      closed + [SemanticZone(kind.value, line, None, exitCode)]
  }

  /**
   * The shape every zone list the addon builds has: the last zone is open,
   * each earlier zone ends just above its successor exactly when the
   * successor closes it and is open otherwise, and only finished zones carry
   * an exit code.
   */
  ghost predicate Chained(zones: seq<SemanticZone>) {
    && (zones != [] ==> zones[|zones| - 1].endLine.None?)
    && (forall i :: 0 <= i < |zones| - 1 ==>
          zones[i].endLine == if Closes(zones[i + 1].kind, zones[i].kind) then Some(zones[i + 1].startLine - 1) else None)
    && (forall i :: 0 <= i < |zones| && zones[i].exitCode.Some? ==> zones[i].kind == CommandFinished)
  }

  /**
   * One FinalTerm mark: a known command adds exactly one zone, of its kind,
   * open, on the cursor line, with the second field as exit code for `D`;
   * the zones before it keep their kind and start, all but the last are
   * untouched, and the list stays chained.  Any other command changes
   * nothing.
   */
  lemma FinalTermStep(zones: seq<SemanticZone>, data: string, line: int)
    requires Chained(zones)
    ensures var r := FinalTermZones(zones, data, line);
      var kind := KindOf(BeforeFirst(data, ';'));
      && Chained(r)
      && (kind.None? ==> r == zones)
      && (kind.Some? ==>
            && |r| == |zones| + 1
            && r[|zones|] == SemanticZone(kind.value, line, None,
                                          if kind.value == CommandFinished then SplitTwo(data, ';').1 else None)
            && (zones != [] ==> r[..|zones| - 1] == zones[..|zones| - 1])
            && (forall i :: 0 <= i < |zones| ==> r[i].kind == zones[i].kind && r[i].startLine == zones[i].startLine))
  {
    var r := FinalTermZones(zones, data, line);
    var kind := KindOf(BeforeFirst(data, ';'));
    if kind.Some? {
      var n := |zones|;
      assert forall i :: 0 <= i < n - 1 ==> r[i] == zones[i];
      if n > 0 {
        assert r[n - 1].endLine == if Closes(kind.value, zones[n - 1].kind) then Some(line - 1) else None;
      }
    }
  }

  /** The zones after a run of marks, each a payload and the cursor line it arrived on. */
  function RunMarks(zones: seq<SemanticZone>, marks: seq<(string, int)>): seq<SemanticZone>
    decreases |marks|
  {
    if marks == [] then zones
    else RunMarks(FinalTermZones(zones, marks[0].0, marks[0].1), marks[1..])
  }

  /**
   * Zones are only ever appended: over any run of marks, the list never
   * shrinks, earlier zones keep their kind and start line, a zone that is
   * no longer last never changes again, and the list stays chained.
   */
  lemma {:induction false} MarksOnlyAppend(zones: seq<SemanticZone>, marks: seq<(string, int)>)
    requires Chained(zones)
    ensures var r := RunMarks(zones, marks);
      && Chained(r)
      && |zones| <= |r|
      && (zones != [] ==> r[..|zones| - 1] == zones[..|zones| - 1])
      && (forall i :: 0 <= i < |zones| ==> r[i].kind == zones[i].kind && r[i].startLine == zones[i].startLine)
    decreases |marks|
  {
    if marks != [] {
      var next := FinalTermZones(zones, marks[0].0, marks[0].1);
      FinalTermStep(zones, marks[0].0, marks[0].1);
      MarksOnlyAppend(next, marks[1..]);
      var r := RunMarks(next, marks[1..]);
      assert r == RunMarks(zones, marks);
      KeepsTrans(zones, next, r);
    }
  }

  /** `b` extends `a`, keeping every zone but the last of `a` and the kind and start line of every zone of `a`. */
  ghost predicate Keeps(a: seq<SemanticZone>, b: seq<SemanticZone>) {
    && |a| <= |b|
    && (a != [] ==> b[..|a| - 1] == a[..|a| - 1])
    && (forall i :: 0 <= i < |a| ==> b[i].kind == a[i].kind && b[i].startLine == a[i].startLine)
  }

  lemma KeepsTrans(a: seq<SemanticZone>, b: seq<SemanticZone>, c: seq<SemanticZone>)
    requires Keeps(a, b) && Keeps(b, c)
    ensures Keeps(a, c)
  {
    if a != [] {
      assert b[..|a| - 1] == a[..|a| - 1];
      assert c[..|a| - 1] == c[..|b| - 1][..|a| - 1];
      assert c[..|b| - 1][..|a| - 1] == b[..|b| - 1][..|a| - 1];
    }
  }

  /** Whether `line` lies in zone `z`: at or below its start and, if it has ended, at or above its end. */
  predicate Covers(z: SemanticZone, line: int) {
    z.startLine <= line && (z.endLine.None? || line <= z.endLine.value)
  }

  /** `_findZoneByLine(line)`: the first zone, in push order, covering `line`. */
  function FindZoneByLine(zones: seq<SemanticZone>, line: int): (r: Option<SemanticZone>)
    ensures r.None? <==> forall i :: 0 <= i < |zones| ==> !Covers(zones[i], line)
    ensures r.Some? ==> exists i :: (0 <= i < |zones| && zones[i] == r.value && Covers(r.value, line)
                                     && forall j :: 0 <= j < i ==> !Covers(zones[j], line))
  {
    if zones == [] then None
    else if Covers(zones[0], line) then Some(zones[0])
    else
      var r := FindZoneByLine(zones[1..], line);
      assert forall i :: 0 < i < |zones| ==> zones[i] == zones[1..][i - 1];
      r
  }

  class ShellIntegrationAddon {
    var cwd: string
    /** `_terminal` and `_buffer` are set: `activate` has run. */
    var activated: bool
    /** `_zones`; its last element is `_currentZone`. */
    var zones: seq<SemanticZone>
    /** The lines passed to `registerMarker`, in order. */
    var markers: seq<int>
    /** `_disposables`. */
    var handlers: seq<OscHandler>

    ghost predicate Valid()
      reads this
    {
      Chained(zones)
    }

    constructor ()
      ensures Valid() && cwd == "" && !activated && zones == [] && markers == [] && handlers == []
    {
      cwd := "";
      activated := false;
      zones := [];
      markers := [];
      handlers := [];
    }

    /** `activate(terminal)`: registers the handlers for `OSC 133`, `OSC 1337` and `OSC 7`. */
    method Activate()
      modifies this
      ensures activated
      ensures handlers == old(handlers) + [OscHandler(FinalTermPs, false), OscHandler(ITermPs, false), OscHandler(SetCwdPs, false)]
      ensures cwd == old(cwd) && zones == old(zones) && markers == old(markers)
    {
      activated := true;
      handlers := handlers + [OscHandler(FinalTermPs, false)];
      handlers := handlers + [OscHandler(ITermPs, false)];
      handlers := handlers + [OscHandler(SetCwdPs, false)];
    }

    /** `_handleSetCwd(data)`. */
    method HandleSetCwd(data: string) returns (handled: bool)
      modifies this
      ensures handled <==> old(activated) && CwdFromFileUrl(data).Some?
      ensures cwd == if handled then CwdFromFileUrl(data).value else old(cwd)
      ensures activated == old(activated) && zones == old(zones) && markers == old(markers) && handlers == old(handlers)
    {
      if !activated {
        return false;
      }
      var path := CwdFromFileUrl(data);
      if path.Some? {
        cwd := path.value;
        return true;
      }
      return false;
    }

    /** `_handleFinalTermSequence(data)` with the cursor on `cursorY`. */
    method HandleFinalTermSequence(data: string, cursorY: int) returns (handled: bool)
      requires Valid()
      modifies this
      ensures Valid()
      ensures handled <==> old(activated) && KindOf(BeforeFirst(data, ';')).Some?
      ensures zones == if old(activated) then FinalTermZones(old(zones), data, cursorY) else old(zones)
      ensures markers == old(markers) + if handled then [cursorY] else []
      ensures cwd == old(cwd) && activated == old(activated) && handlers == old(handlers)
    {
      if !activated {
        return false;
      }
      FinalTermStep(zones, data, cursorY);
      var command := BeforeFirst(data, ';');
      var kind := KindOf(command);
      if kind.None? {
        return false;
      }
      if zones != [] && Closes(kind.value, zones[|zones| - 1].kind) {
        zones := zones[|zones| - 1 := zones[|zones| - 1].(endLine := Some(cursorY - 1))];
      }
      var exitCode := if kind.value == CommandFinished then SplitTwo(data, ';').1 else None;
      zones := zones + [SemanticZone(kind.value, cursorY, None, exitCode)];
      markers := markers + [cursorY];
      return true;
    }

    /** `_handleITermSequence(data)` with the cursor on `cursorY`. */
    method HandleITermSequence(data: string, cursorY: int) returns (handled: bool)
      modifies this
      ensures handled <==> old(activated) && !ParseITerm(data).OtherKey?
      ensures cwd == if old(activated) && ParseITerm(data).CurrentDir? then ParseITerm(data).dir else old(cwd)
      ensures markers == old(markers) + if old(activated) && ParseITerm(data).SetMark? then [cursorY] else []
      ensures zones == old(zones) && activated == old(activated) && handlers == old(handlers)
    {
      if !activated {
        return false;
      }
      match ParseITerm(data) {
        case SetMark =>
          markers := markers + [cursorY];
          handled := true;
        case KeyOnly =>
          handled := true;
        case CurrentDir(dir) =>
          cwd := dir;
          handled := true;
        case OtherKey =>
          handled := false;
      }
    }

    /** `getZoneAt(line)`: the first zone covering `line`, if any. */
    method GetZoneAt(line: int) returns (r: Option<SemanticZone>)
      ensures r.None? <==> forall i :: 0 <= i < |zones| ==> !Covers(zones[i], line)
      ensures r.Some? ==> exists i :: (0 <= i < |zones| && zones[i] == r.value && Covers(r.value, line)
                                       && forall j :: 0 <= j < i ==> !Covers(zones[j], line))
    {
      r := FindZoneByLine(zones, line);
    }

    /** `dispose()`: disposes every registered handler, in order. */
    method Dispose()
      modifies this
      ensures |handlers| == |old(handlers)|
      ensures forall i :: 0 <= i < |handlers| ==> handlers[i] == old(handlers[i]).(disposed := true)
      ensures cwd == old(cwd) && activated == old(activated) && zones == old(zones) && markers == old(markers)
    {
      var i := 0;
      while i < |handlers|
        invariant i <= |handlers| == |old(handlers)|
        invariant forall j :: 0 <= j < |handlers| ==>
          handlers[j] == if j < i then old(handlers[j]).(disposed := true) else old(handlers[j])
        invariant cwd == old(cwd) && activated == old(activated) && zones == old(zones) && markers == old(markers)
      {
        handlers := handlers[i := handlers[i].(disposed := true)];
        i := i + 1;
      }
    }
  }
}
