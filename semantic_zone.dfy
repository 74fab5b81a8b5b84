/**
 * `SemanticZoneService` (src/xterm/shellIntegrationAddon/semanticZone.ts):
 * it remembers where a zone was opened, its working directory and where its
 * output starts, and hands out the finished zone when it is closed below
 * its start.  Positions are xterm markers: objects with an id and a line.
 */
module SemanticZones {
  import opened Wrappers

  /** An xterm `IMarker`. */
  datatype Marker = Marker(id: nat, line: int)

  /** `ISemanticZone`. */
  datatype Zone = Zone(cwd: string, start: Marker, end: Marker, outputStart: Option<Marker>)

  /**
   * The primitive JavaScript takes from a marker in a comparison: a marker
   * defines neither `valueOf` nor `toString`, so it is
   * `Object.prototype.toString`'s text.
   */
  function ToPrimitive(m: Marker): string {
    "[object Object]"
  }

  /** `a < b` on two strings: lexicographic order on characters, which is JavaScript's order on UTF-16 code units for text within the Basic Multilingual Plane. */
  predicate StringLess(a: string, b: string) {
    if b == [] then false
    else if a == [] then true
    else if a[0] != b[0] then a[0] < b[0]
    else StringLess(a[1..], b[1..])
  }

  lemma {:induction false} StringLessIrreflexive(s: string)
    ensures !StringLess(s, s)
  {
    if s != [] {
      StringLessIrreflexive(s[1..]);
    }
  }

  /** `end <= start` on two markers, as JavaScript evaluates it: `!(start < end)` on their primitives. */
  predicate AtOrBeforeAsWritten(end: Marker, start: Marker) {
    !StringLess(ToPrimitive(start), ToPrimitive(end))
  }

  /** Comparing two markers with `<=` holds whatever lines they mark. */
  lemma MarkerComparisonAlwaysHolds(end: Marker, start: Marker)
    ensures AtOrBeforeAsWritten(end, start)
  {
    StringLessIrreflexive("[object Object]");
  }

  /** The comparison the close evidently means: the end marker is on or above the start's line. */
  predicate AtOrBefore(end: Marker, start: Marker) {
    end.line <= start.line
  }

  class SemanticZoneService {
    var cwd: string
    var start: Option<Marker>
    var outputStart: Option<Marker>

    constructor ()
      ensures cwd == "" && start == None && outputStart == None
    {
      cwd := "";
      start := None;
      outputStart := None;
    }

    /** `openSemanticZone(line)`: sets only the start. */
    method OpenSemanticZone(line: Marker)
      modifies this
      ensures start == Some(line) && cwd == old(cwd) && outputStart == old(outputStart)
    {
      start := Some(line);
    }

    /** `setCwd(cwd)`. */
    method SetCwd(cwd: string)
      modifies this
      ensures this.cwd == cwd && start == old(start) && outputStart == old(outputStart)
    {
      this.cwd := cwd;
    }

    /** `setOutputStart(line)`. */
    method SetOutputStart(line: Marker)
      modifies this
      ensures outputStart == Some(line) && cwd == old(cwd) && start == old(start)
    {
      outputStart := Some(line);
    }

    /** `_reset()`. */
    method Reset()
      modifies this
      ensures cwd == "" && start == None && outputStart == None
    {
      start := None;
      outputStart := None;
      cwd := "";
    }

    /**
     * `closeSemanticZone(end)` as written: the markers are compared as
     * objects, the comparison always holds, and so every close is refused
     * and resets the service.
     */
    method CloseSemanticZoneAsWritten(end: Marker) returns (r: Option<Zone>)
      modifies this
      ensures r == None
      ensures cwd == "" && start == None && outputStart == None
    {
      if start.None? || AtOrBeforeAsWritten(end, start.value) {
        Reset();
        return None;
      }
      MarkerComparisonAlwaysHolds(end, start.value);
      assert false;
    }

    /**
     * `closeSemanticZone(end)` comparing lines: a zone opened above `end`
     * is handed out with the current directory and output start, and only
     * the start is cleared; otherwise the close is refused and everything
     * is reset.
     */
    method CloseSemanticZone(end: Marker) returns (r: Option<Zone>)
      modifies this
      ensures r.Some? <==> old(start).Some? && old(start).value.line < end.line
      ensures r.Some? ==> r.value == Zone(old(cwd), old(start).value, end, old(outputStart))
                          && start == None && cwd == old(cwd) && outputStart == old(outputStart)
      ensures r.None? ==> cwd == "" && start == None && outputStart == None
    {
      if start.None? || AtOrBefore(end, start.value) {
        Reset();
        return None;
      }
      var s := start.value;
      start := None;
      return Some(Zone(cwd, s, end, outputStart));
    }
  }
}
