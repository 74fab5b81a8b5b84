/**
 * The terminal addon of src/xterm/shellIntegrationAddon/index.ts.  It only
 * tracks the working directory: `OSC 7` and `OSC 1337 ; CurrentDir=…` set
 * it, FinalTerm marks are accepted by no case, and the VS Code handler
 * (whose registration is commented out in the source) sets it from
 * `P;Cwd=…`.
 */
module CwdShellIntegration {
  import opened Wrappers
  import opened JsStrings
  import opened OscPayloads

  class ShellIntegrationAddon {
    var cwd: string
    /** `_terminal` (and `_buffer`) are set: `activate` has run. */
    var activated: bool
    /** `_disposables`. */
    var handlers: seq<OscHandler>

    constructor ()
      ensures cwd == "" && !activated && handlers == []
    {
      cwd := "";
      activated := false;
      handlers := [];
    }

    /** `activate(terminal)`: registers the handlers for `OSC 133`, `OSC 1337` and `OSC 7`, not for 633. */
    method Activate()
      modifies this
      ensures activated && cwd == old(cwd)
      ensures handlers == old(handlers) + [OscHandler(FinalTermPs, false), OscHandler(ITermPs, false), OscHandler(SetCwdPs, false)]
    {
      activated := true;
      handlers := handlers + [OscHandler(FinalTermPs, false)];
      handlers := handlers + [OscHandler(ITermPs, false)];
      handlers := handlers + [OscHandler(SetCwdPs, false)];
    }

    /** `_handleSetCwd(data)`: the same extraction as the zone-tracking addon. */
    method HandleSetCwd(data: string) returns (handled: bool)
      modifies this
      ensures handled <==> old(activated) && CwdFromFileUrl(data).Some?
      ensures cwd == if handled then CwdFromFileUrl(data).value else old(cwd)
      ensures activated == old(activated) && handlers == old(handlers)
    {
      if !activated {
        return false;
      }
      var path := CwdFromFileUrl(data);
      if path.Some? {
        cwd := path.value;
        return true;
      }
      return false;
    }

    /** `_handleFinalTermSequence(data)`: its `switch` has no cases. */
    method HandleFinalTermSequence(data: string) returns (handled: bool)
      ensures !handled
    {
      handled := false;
    }

    /** `_handleITermSequence(data)`: like the zone-tracking addon, except that `SetMark` is refused. */
    method HandleITermSequence(data: string) returns (handled: bool)
      modifies this
      ensures handled <==> old(activated) && (ParseITerm(data).KeyOnly? || ParseITerm(data).CurrentDir?)
      ensures cwd == if old(activated) && ParseITerm(data).CurrentDir? then ParseITerm(data).dir else old(cwd)
      ensures activated == old(activated) && handlers == old(handlers)
    {
      if !activated {
        return false;
      }
      match ParseITerm(data) {
        case SetMark =>
          handled := false;
        case KeyOnly =>
          handled := true;
        case CurrentDir(dir) =>
          cwd := dir;
          handled := true;
        case OtherKey =>
          handled := false;
      }
    }

    /** `_handleVscodeSequence(data)`: `P` is handled, as a property; everything else is refused. */
    method HandleVscodeSequence(data: string) returns (handled: bool)
      modifies this
      ensures handled <==> old(activated) && SplitVscode(data).0 == "P"
      ensures cwd == if handled && VscPropertyCwd(SplitVscode(data).1).Some? then VscPropertyCwd(SplitVscode(data).1).value else old(cwd)
      ensures activated == old(activated) && handlers == old(handlers)
    {
      if !activated {
        return false;
      }
      var (command, params) := SplitVscode(data);
      if command == "P" {
        HandleVscProperty(params);
        return true;
      }
      return false;
    }

    /** `_handleVscProperty(params)`: only `Cwd` with a value changes anything. */
    method HandleVscProperty(params: Option<string>)
      modifies this
      ensures cwd == if VscPropertyCwd(params).Some? then VscPropertyCwd(params).value else old(cwd)
      ensures activated == old(activated) && handlers == old(handlers)
    {
      var dir := VscPropertyCwd(params);
      if dir.Some? {
        cwd := dir.value;
      }
    }

    /** `dispose()`: disposes every registered handler, in order. */
    method Dispose()
      modifies this
      ensures |handlers| == |old(handlers)|
      ensures forall i :: 0 <= i < |handlers| ==> handlers[i] == old(handlers[i]).(disposed := true)
      ensures cwd == old(cwd) && activated == old(activated)
    {
      var i := 0;
      while i < |handlers|
        invariant i <= |handlers| == |old(handlers)|
        invariant forall j :: 0 <= j < |handlers| ==>
          handlers[j] == if j < i then old(handlers[j]).(disposed := true) else old(handlers[j])
        invariant cwd == old(cwd) && activated == old(activated)
      {
        handlers := handlers[i := handlers[i].(disposed := true)];
        i := i + 1;
      }
    }
  }
}
