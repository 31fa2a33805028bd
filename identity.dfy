/**
 * The device id: "raspi-" followed by the Raspberry Pi serial number, which
 * get_serial_number takes from the "Serial" line of /proc/cpuinfo. The file is
 * given here as its sequence of lines.
 */
module Identity {
  import opened Outcomes

  /** The characters Python's str.isspace() accepts, which str.strip() removes. */
  predicate IsSpace(c: char)
  {
    || c == ' ' || ('\t' <= c <= '\r') || ('\U{1c}' <= c <= '\U{1f}')
    || c == '\U{85}' || c == '\U{a0}' || c == '\U{1680}' || ('\U{2000}' <= c <= '\U{200a}')
    || c == '\U{2028}' || c == '\U{2029}' || c == '\U{202f}' || c == '\U{205f}' || c == '\U{3000}'
  }

  predicate AllSpace(s: string)
  {
    forall i :: 0 <= i < |s| ==> IsSpace(s[i])
  }

  /** How many whitespace characters s starts with. */
  function LeadingSpace(s: string): (k: nat)
    ensures k <= |s| && AllSpace(s[..k])
    ensures k < |s| ==> !IsSpace(s[k])
  {
    if s == [] || !IsSpace(s[0]) then 0
    else
      var k := LeadingSpace(s[1..]);
      assert s[..k + 1] == [s[0]] + s[1..][..k];
      k + 1
  }

  /** How many whitespace characters s ends with. */
  function TrailingSpace(s: string): (k: nat)
    ensures k <= |s| && AllSpace(s[|s| - k..])
    ensures k < |s| ==> !IsSpace(s[|s| - k - 1])
  {
    if s == [] || !IsSpace(s[|s| - 1]) then 0
    else
      var k := TrailingSpace(s[..|s| - 1]);
      assert s[|s| - (k + 1)..] == s[..|s| - 1][|s| - 1 - k..] + [s[|s| - 1]];
      k + 1
  }

  /** str.strip(): s without its leading and trailing whitespace. */
  function Strip(s: string): (r: string)
    ensures r == [] || (!IsSpace(r[0]) && !IsSpace(r[|r| - 1]))
    ensures exists i :: 0 <= i <= |s| - |r| && s[i..i + |r|] == r && AllSpace(s[..i]) && AllSpace(s[i + |r|..])
  {
    var i := LeadingSpace(s);
    var t := s[i..];
    var r := t[..|t| - TrailingSpace(t)];
    assert s[i..i + |r|] == r;
    assert s[i + |r|..] == t[|t| - TrailingSpace(t)..];
    r
  }

  /** Stripping twice is stripping once. */
  lemma StripIdempotent(s: string)
    ensures Strip(Strip(s)) == Strip(s)
  {
    var r := Strip(s);
    if r != [] {
      assert LeadingSpace(r) == 0;
      assert TrailingSpace(r) == 0;
      assert r[0..][..|r|] == r;
    }
  }

  /** str.split(sep): the pieces between separators, empty pieces kept. */
  function Split(s: string, sep: char): (fields: seq<string>)
    ensures |fields| >= 1
    ensures |fields| == 1 <==> sep !in s
    ensures forall i :: 0 <= i < |fields| ==> sep !in fields[i]
  {
    if s == [] then [[]]
    else
      var rest := Split(s[1..], sep);
      assert s == [s[0]] + s[1..];
      if s[0] == sep then [[]] + rest
      else [[s[0]] + rest[0]] + rest[1..]
  }

  /** sep.join(fields), the inverse of Split. */
  function Join(fields: seq<string>, sep: char): string
    requires |fields| >= 1
  {
    if |fields| == 1 then fields[0] else fields[0] + [sep] + Join(fields[1..], sep)
  }

  /** Splitting loses nothing: joining the fields gives the line back. */
  lemma {:induction false} SplitJoin(s: string, sep: char)
    ensures Join(Split(s, sep), sep) == s
  {
    if s != [] {
      SplitJoin(s[1..], sep);
      var rest := Split(s[1..], sep);
      if s[0] != sep && |rest| > 1 {
        assert Join(Split(s, sep), sep) == [s[0]] + rest[0] + [sep] + Join(rest[1..], sep);
      }
    }
  }

  /** And splitting a join of separator-free fields gives the fields back. */
  lemma {:induction false} JoinSplit(fields: seq<string>, sep: char)
    requires |fields| >= 1
    requires forall i :: 0 <= i < |fields| ==> sep !in fields[i]
    ensures Split(Join(fields, sep), sep) == fields
  {
    if |fields| == 1 {
      SplitNoSeparator(fields[0], sep);
    } else {
      JoinSplit(fields[1..], sep);
      SplitAcross(fields[0], Join(fields[1..], sep), sep);
    }
  }

  lemma {:induction false} SplitNoSeparator(s: string, sep: char)
    requires sep !in s
    ensures Split(s, sep) == [s]
  {
    if s != [] {
      assert s[0] in s && s == [s[0]] + s[1..];
      SplitNoSeparator(s[1..], sep);
    }
  }

  /** Split of a separator-free head, a separator and a tail. */
  lemma {:induction false} SplitAcross(head: string, tail: string, sep: char)
    requires sep !in head
    ensures Split(head + [sep] + tail, sep) == [head] + Split(tail, sep)
  {
    if head == [] {
      assert ([sep] + tail)[1..] == tail;
    } else {
      assert (head + [sep] + tail)[1..] == head[1..] + [sep] + tail;
      assert head[0] in head && head == [head[0]] + head[1..];
      SplitAcross(head[1..], tail, sep);
    }
  }

  /** line[0:6] == 'Serial', with Python's slice clamped to the line's length. */
  function IsSerialLine(line: string): (b: bool)
    ensures b <==> |line| >= 6 && line[..6] == "Serial"
  {
    line[..if |line| < 6 then |line| else 6] == "Serial"
  }

  /** What get_serial_number returns, or why it raises. */
  datatype SerialLookup =
    | Found(serial: string)
    | NoSerialLine      // the loop ends and the function returns None
    | NoSecondField     // line.split(":")[1] raises IndexError

  /** line.split(":")[1].strip() */
  function ParseSerialLine(line: string): (r: SerialLookup)
    ensures r != NoSerialLine
    ensures r == NoSecondField <==> ':' !in line
  {
    var fields := Split(line, ':');
    if |fields| < 2 then NoSecondField else Found(Strip(fields[1]))
  }

  /**
   * The serial is the stripped text between the first ':' and the next one
   * (or the end of the line); anything after a second ':' is ignored.
   */
  lemma ParseSerialField(head: string, field: string, tail: string)
    requires ':' !in head && ':' !in field
    ensures ParseSerialLine(head + [':'] + field) == Found(Strip(field))
    ensures ParseSerialLine(head + [':'] + field + [':'] + tail) == Found(Strip(field))
  {
    SplitAcross(head, field, ':');
    SplitNoSeparator(field, ':');
    assert head + [':'] + field + [':'] + tail == head + [':'] + (field + [':'] + tail);
    SplitAcross(head, field + [':'] + tail, ':');
    SplitAcross(field, tail, ':');
  }

  /**
   * get_serial_number over the lines of /proc/cpuinfo: the first line that
   * starts with "Serial" decides; later ones are never looked at.
   */
  method GetSerialNumber(lines: seq<string>) returns (r: SerialLookup)
    ensures r == NoSerialLine <==> forall i :: 0 <= i < |lines| ==> !IsSerialLine(lines[i])
    ensures r != NoSerialLine ==>
      exists i :: 0 <= i < |lines| && IsSerialLine(lines[i]) && r == ParseSerialLine(lines[i])
        && forall j :: 0 <= j < i ==> !IsSerialLine(lines[j])
  {
    for k := 0 to |lines|
      invariant forall j :: 0 <= j < k ==> !IsSerialLine(lines[j])
    {
      if IsSerialLine(lines[k]) {
        return ParseSerialLine(lines[k]);
      }
    }
    return NoSerialLine;
  }

  /** Why the program cannot start without an id. */
  datatype StartupFault =
    | NoSerial           // "raspi-" + None raises TypeError
    | MalformedSerial    // the IndexError from get_serial_number

  const IdPrefix: string := "raspi-"

  /** id = "raspi-" + get_serial_number(): never empty, and the serial can be read back from it. */
  function DeviceId(lookup: SerialLookup): (id: Result<string, StartupFault>)
    ensures id.Ok? <==> lookup.Found?
    ensures id.Ok? ==>
      && |id.value| >= |IdPrefix| > 0
      && id.value[..|IdPrefix|] == IdPrefix
      && id.value[|IdPrefix|..] == lookup.serial
    ensures lookup == NoSerialLine ==> id == Err(NoSerial)
    ensures lookup == NoSecondField ==> id == Err(MalformedSerial)
  {
    match lookup
    case Found(serial) => Ok(IdPrefix + serial)
    case NoSerialLine => Err(NoSerial)
    case NoSecondField => Err(MalformedSerial)
  }
}
