/**
 * The text parameters (`Pt`) of the shell-integration OSC sequences, as both
 * terminal addons parse them (src/xterm/shellIntegrationAddon.ts and
 * src/xterm/shellIntegrationAddon/index.ts): the `file://` working
 * directory of `OSC 7`, the `key=value` commands of `OSC 1337` (iTerm2) and
 * the `command;params` split and `P;Cwd=…` property of `OSC 633` (VS Code).
 */
module OscPayloads {
  import opened Wrappers
  import opened JsStrings

  /** The OSC numbers (`Ps`) the addons register handlers for. */
  const FinalTermPs := 133
  const ITermPs := 1337
  const SetCwdPs := 7

  /** A registered OSC handler and whether it has been disposed. */
  datatype OscHandler = OscHandler(ps: int, disposed: bool)

  /** The characters a regular-expression `.` does not match. */
  predicate IsLineTerminator(c: char) {
    c == '\n' || c == '\r' || c == '\U{2028}' || c == '\U{2029}'
  }

  /** `/^file:\/\/.*\//` matches `uri`: `file://`, then a `/` with no line terminator before it. */
  predicate MatchesFileUrl(uri: string) {
    && StartsWith(uri, "file://")
    && exists j :: 7 <= j < |uri| && uri[j] == '/' && forall k :: 7 <= k < j ==> !IsLineTerminator(uri[k])
  }

  // ---------------------------------------------------------------------
  // OSC 7: the working directory.

  /**
   * `_handleSetCwd(data)`: the new `cwd`, or None when the handler returns
   * false.  Only the text before the first `;` is looked at; the directory
   * is the suffix from the first `/` at index 7 or later.
   */
  function CwdFromFileUrl(data: string): Option<string> {
    var uri := BeforeFirst(data, ';');
    if MatchesFileUrl(uri) then
      var path := SliceFrom(uri, IndexOfFrom(uri, '/', 7));
      if path != "" then Some(path) else None
    else None
  }

  /**
   * The handler accepts exactly the payloads whose first field matches the
   * pattern; the directory it takes is the suffix of that field from the
   * first `/` after the host, and the emptiness check never fails.
   */
  lemma CwdFromFileUrlSpec(data: string)
    ensures var uri := BeforeFirst(data, ';');
      && (CwdFromFileUrl(data).Some? <==> MatchesFileUrl(uri))
      && (CwdFromFileUrl(data).Some? ==>
            var p := CwdFromFileUrl(data).value;
            && 7 <= |uri| - |p| && p != "" && p[0] == '/'
            && uri == uri[..|uri| - |p|] + p
            && '/' !in uri[7..|uri| - |p|])
  {
    var uri := BeforeFirst(data, ';');
    if MatchesFileUrl(uri) {
      var j :| 7 <= j < |uri| && uri[j] == '/';
      var idx := IndexOfFrom(uri, '/', 7);
      assert idx != -1 && idx <= j;
      var p := uri[idx..];
      assert SliceFrom(uri, idx) == p;
      assert CwdFromFileUrl(data) == Some(p);
      assert |uri| - |p| == idx;
      assert uri == uri[..idx] + p;
      assert '/' !in uri[7..idx] by {
        forall m | 0 <= m < idx - 7
          ensures uri[7..idx][m] != '/'
        {
          assert uri[7..idx][m] == uri[m + 7];
        }
      }
    }
  }

  /**
   * Composing a `file://` URL from a host and a directory and handing it to
   * the handler gives back the directory.
   */
  lemma FileUrlRoundTrip(host: string, dir: string, rest: string)
    requires '/' !in host && ';' !in host && forall c :: c in host ==> !IsLineTerminator(c)
    requires dir != "" && dir[0] == '/' && ';' !in dir
    requires rest == "" || rest[0] == ';'
    ensures CwdFromFileUrl("file://" + host + dir + rest) == Some(dir)
  {
    var uri := "file://" + host + dir;
    var data := uri + rest;
    assert data == "file://" + host + dir + rest;
    assert ';' !in uri by {
      assert forall k :: 0 <= k < |uri| ==> uri[k] == (if k < 7 then "file://"[k] else if k < 7 + |host| then host[k - 7] else dir[k - 7 - |host|]);
    }
    assert BeforeFirst(data, ';') == uri by {
      assert data[..|uri|] == uri;
      if rest != "" {
        assert data[|uri|] == ';';
      }
    }
    var j := 7 + |host|;
    assert uri[j] == '/';
    assert forall k :: 7 <= k < j ==> uri[k] == host[k - 7];
    assert MatchesFileUrl(uri);
    assert IndexOfFrom(uri, '/', 7) == j;
    assert uri[j..] == dir;
  }

  /** The accepted case of the unit tests, `file:///home/user/projects`. */
  lemma SetCwdAcceptsFileUrl()
    ensures CwdFromFileUrl("file://" + "/home/user/projects") == Some("/home/user/projects")
  {
    var dir := "/home/user/projects";
    FileUrlRoundTrip("", dir, "");
    assert "file://" + "" + dir + "" == "file://" + dir;
  }

  /** The rejected case of the unit tests. */
  lemma SetCwdRejectsOtherScheme()
    ensures CwdFromFileUrl("invalid://path") == None
  {
    var s := "invalid://path";
    var uri := BeforeFirst(s, ';');
    assert !StartsWith(uri, "file://") by {
      if |uri| >= 7 {
        assert uri[0] == s[0] == 'i';
      }
    }
  }

  // ---------------------------------------------------------------------
  // OSC 1337: iTerm2 commands.

  /** What the first field of an `OSC 1337` payload asks for. */
  datatype ITermCommand =
    | SetMark                  // `SetMark`
    | KeyOnly                  // no `=` at all
    | CurrentDir(dir: string)  // `CurrentDir=<dir>`
    | OtherKey                 // `<key>=…` for any other key

  /**
   * The command of `data`: the text before the first `;`, split with
   * `split('=', 2)`, so the value stops at a second `=`.
   */
  function ParseITerm(data: string): (r: ITermCommand)
    ensures r.KeyOnly? <==> BeforeFirst(data, ';') != "SetMark" && '=' !in BeforeFirst(data, ';')
    ensures r.CurrentDir? ==> StartsWith(BeforeFirst(data, ';'), "CurrentDir=" + r.dir) && '=' !in r.dir
  {
    var command := BeforeFirst(data, ';');
    if command == "SetMark" then SetMark
    else
      var (key, value) := SplitTwo(command, '=');
      if value.None? then KeyOnly
      else if key == "CurrentDir" then
        SplitTwoJoins(command, '=');
        CurrentDir(value.value)
      else OtherKey
  }

  /**
   * `CurrentDir=<dir>` reports `dir`, provided `dir` holds no `;` and no
   * `=`; whatever follows a further `;` or `=` is discarded.
   */
  lemma CurrentDirRoundTrip(dir: string, rest: string)
    requires ';' !in dir && '=' !in dir
    requires rest == "" || rest[0] == ';' || (rest[0] == '=' && ';' !in rest)
    ensures ParseITerm("CurrentDir=" + dir + rest) == CurrentDir(dir)
  {
    var tail := if rest != "" && rest[0] == '=' then rest else "";
    CommandBeforeSemicolon(dir, rest);
    SplitCurrentDir(dir, tail);
    var command := "CurrentDir=" + dir + tail;
    assert command != "SetMark" by {
      assert |command| >= 11;
    }
  }

  /** The command of `CurrentDir=<dir><rest>` keeps `rest` only when it starts with `=`. */
  lemma CommandBeforeSemicolon(dir: string, rest: string)
    requires ';' !in dir
    requires rest == "" || rest[0] == ';' || (rest[0] == '=' && ';' !in rest)
    ensures BeforeFirst("CurrentDir=" + dir + rest, ';')
      == "CurrentDir=" + dir + (if rest != "" && rest[0] == '=' then rest else "")
  {
    var data := "CurrentDir=" + dir + rest;
    var command := BeforeFirst(data, ';');
    var prefix := "CurrentDir=" + dir;
    assert data == prefix + rest;
    assert forall k :: 0 <= k < |prefix| ==> prefix[k] == (if k < 11 then "CurrentDir="[k] else dir[k - 11]);
    assert ';' !in prefix;
    if rest != "" && rest[0] == ';' {
      assert data[|prefix|] == ';' && data[..|prefix|] == prefix;
      assert command == prefix;
    } else if rest == "" {
      assert data == prefix;
    } else {
      assert ';' !in data by {
        assert forall k :: 0 <= k < |data| ==> data[k] == (if k < |prefix| then prefix[k] else rest[k - |prefix|]);
      }
    }
  }

  /** Splitting `CurrentDir=<dir><tail>` at `=` gives the key and `dir` when `tail` is empty or starts with `=`. */
  lemma SplitCurrentDir(dir: string, tail: string)
    requires '=' !in dir
    requires tail == "" || tail[0] == '='
    ensures SplitTwo("CurrentDir=" + dir + tail, '=') == ("CurrentDir", Some(dir))
  {
    var command := "CurrentDir=" + dir + tail;
    assert command[10] == '=' && "CurrentDir" == command[..10];
    assert '=' !in command[..10];
    assert IndexOf(command, '=') == 10;
    var after := command[11..];
    assert after == dir + tail;
    assert after[..|dir|] == dir;
    if tail != "" {
      assert after[|dir|] == '=';
    }
    assert BeforeFirst(after, '=') == dir;
  }

  // ---------------------------------------------------------------------
  // OSC 633: VS Code commands.

  /**
   * `_handleVscodeSequence`'s split: the command before the first `;` and,
   * when there is a `;`, everything after it as the parameters.
   */
  function SplitVscode(data: string): (r: (string, Option<string>))
    ensures ';' !in r.0
    ensures data == r.0 + (if r.1.Some? then ";" + r.1.value else "")
    ensures r.1.None? <==> ';' !in data
  {
    var idx := IndexOf(data, ';');
    if idx < 0 then (data, None)
    else
      assert data == data[..idx] + ";" + data[idx + 1..];
      (data[..idx], Some(data[idx + 1..]))
  }

  /** Joining a command without `;` to its parameters and splitting again gives both back. */
  lemma VscodeRoundTrip(command: string, params: Option<string>)
    requires ';' !in command
    ensures SplitVscode(command + (if params.Some? then ";" + params.value else "")) == (command, params)
  {
    var data := command + (if params.Some? then ";" + params.value else "");
    var r := SplitVscode(data);
    if params.Some? {
      assert data[|command|] == ';' && data[..|command|] == command;
      assert IndexOf(data, ';') == |command|;
      assert data[|command| + 1..] == params.value;
    } else {
      assert data == command;
    }
  }

  /**
   * `_handleVscProperty(params)`: the new `cwd`, present only for parameters
   * `Cwd=<value>`; the value stops at a second `=`.
   */
  function VscPropertyCwd(params: Option<string>): (r: Option<string>)
    ensures r.Some? ==> params.Some? && StartsWith(params.value, "Cwd=" + r.value) && '=' !in r.value
  {
    if params.None? then None
    else
      var (key, value) := SplitTwo(params.value, '=');
      if value.Some? && key == "Cwd" then
        assert params.value[..3] == key && params.value[3] == '=';
        assert params.value[..4 + |value.value|] == "Cwd=" + value.value;
        value
      else None
  }

  /** `Cwd=<dir>` reports `dir` when `dir` has no `=`; any other key, or no `=`, reports nothing. */
  lemma VscPropertyCwdSpec(key: string, dir: string)
    requires '=' !in key && '=' !in dir
    ensures VscPropertyCwd(Some(key + "=" + dir)) == if key == "Cwd" then Some(dir) else None
    ensures VscPropertyCwd(Some(key)) == None
    ensures VscPropertyCwd(None) == None
  {
    var p := key + "=" + dir;
    assert p[|key|] == '=' && p[..|key|] == key;
    assert IndexOf(p, '=') == |key|;
    assert p[|key| + 1..] == dir;
  }
}
