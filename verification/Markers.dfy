/** The bounded text a trim leaves in place of an archived output. */
module Markers {
  import opened Branch

  const TRIM_MARKER_MAX_CHARS := 400
  const MIN_LAST_LINE := 16

  /** One digest line of at most max characters, never cut inside a surrogate pair. */
  function DigestLine(h: Host, line: string, max: nat): (r: string)
    requires 2 <= max
    ensures |r| <= max
  {
    var clean := h.clean(line);
    if |clean| <= max then clean
    else clean[..if h.highSurrogate(clean[max - 2]) then max - 2 else max - 1] + ['\U{2026}']
  }

  function AddLines(h: Host, marker: string, lines: seq<string>): string
    decreases |lines|
  {
    if lines == [] then marker
    else
      var room := TRIM_MARKER_MAX_CHARS - |marker| - 1;
      if |lines[0]| <= room then AddLines(h, marker + "\n" + lines[0], lines[1..])
      else if room >= MIN_LAST_LINE then marker + "\n" + DigestLine(h, lines[0], room)
      else marker
  }

  /** The retrieval line plus digest lines, dropping lines from the end to fit. */
  method BoundedMarker(h: Host, head: string, lines: seq<string>) returns (marker: string)
    ensures marker == AddLines(h, head, lines)
  {
    marker := head;
    for i := 0 to |lines|
      invariant AddLines(h, marker, lines[i..]) == AddLines(h, head, lines)
    {
      var line := lines[i];
      assert lines[i..][0] == line && lines[i..][1..] == lines[i + 1..];
      var room := TRIM_MARKER_MAX_CHARS - |marker| - 1;
      if |line| <= room {
        marker := marker + "\n" + line;
      } else {
        if room >= MIN_LAST_LINE { marker := marker + "\n" + DigestLine(h, line, room); }
        return;
      }
    }
  }

  /** A marker keeps its retrieval line whole and is no longer than the limit or that line. */
  lemma {:induction false} MarkerBounded(h: Host, head: string, lines: seq<string>)
    ensures var m := AddLines(h, head, lines);
            head <= m && (|m| <= TRIM_MARKER_MAX_CHARS || m == head)
    decreases |lines|
  {
    if lines != [] {
      var room := TRIM_MARKER_MAX_CHARS - |head| - 1;
      if |lines[0]| <= room {
        MarkerBounded(h, head + "\n" + lines[0], lines[1..]);
      }
    }
  }
}
