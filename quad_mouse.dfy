/**
 * The QuadMouse box: up to four mice whose movement deltas arrive over a
 * serial line as text such as "0:3,-1;1:0,0;". Each accepted segment
 * "id:x,y" updates the last vector of that mouse and is passed on as a
 * MovementData message, except that a repeated standstill is dropped.
 *
 * The reader thread, `ReadLine` and cancellation are not part of this
 * model: `HandleLine` is one turn of the reader loop for one line.
 * `Convert.ToUInt32` and `Convert.ToInt32` of a substring are input
 * functions `toUInt32` and `toInt32`, `None` standing for the exception the
 * conversion throws.
 */
module QuadMouse {
  import opened Common

  /** The handler table: stop and the movement switch, all without attributes. */
  function QuadMouseTable(): (t: HandlerTable)
    ensures t.Keys == {StopDeviceCmdType, StartMovementCmdType, StopMovementCmdType}
    ensures t[StopDeviceCmdType] == NoAttributes && t[StartMovementCmdType] == NoAttributes
    ensures t[StopMovementCmdType] == NoAttributes
  {
    map[StopDeviceCmdType := NoAttributes][StartMovementCmdType := NoAttributes][StopMovementCmdType := NoAttributes]
  }

  /** `_last` as the constructor fills it: mice 0 to 3, standing still. */
  function InitialLast(): (m: map<nat, (int, int)>)
    ensures m.Keys == {0, 1, 2, 3}
    ensures forall id :: id in m ==> m[id] == (0, 0)
  {
    map[0 := (0, 0)][1 := (0, 0)][2 := (0, 0)][3 := (0, 0)]
  }

  // ---------------------------------------------------------------------
  // The string operations the reader uses

  /** `String.Split(c)`: the pieces between the separators, empty ones included. */
  function Split(s: string, sep: char): (r: seq<string>)
    ensures |r| >= 1
    ensures forall k :: 0 <= k < |r| ==> sep !in r[k]
  {
    if s == [] then [""]
    else
      var rest := Split(s[1..], sep);
      if s[0] == sep then [""] + rest else [[s[0]] + rest[0]] + rest[1..]
  }

  /** Joining the pieces with the separator gives back the line: splitting loses nothing. */
  lemma {:induction false} SplitJoin(s: string, sep: char)
    ensures Join([sep], Split(s, sep)) == s
  {
    if s != [] {
      var rest := Split(s[1..], sep);
      SplitJoin(s[1..], sep);
      if s[0] == sep {
        assert ([""] + rest)[1..] == rest;
        assert s == [sep] + s[1..];
      } else {
        var r := [[s[0]] + rest[0]] + rest[1..];
        assert r[1..] == rest[1..];
        if |rest| == 1 {
          assert s == [s[0]] + rest[0];
        } else {
          assert rest[1..] == rest[1..];
          assert Join([sep], rest) == rest[0] + [sep] + Join([sep], rest[1..]);
          assert s == [s[0]] + (rest[0] + [sep] + Join([sep], rest[1..]));
        }
      }
    }
  }

  /** `String.IndexOf(c)`: the first position of c, or -1. */
  function IndexOf(s: string, c: char): (r: int)
    ensures -1 <= r < |s|
    ensures r == -1 <==> c !in s
    ensures r >= 0 ==> s[r] == c && forall j :: 0 <= j < r ==> s[j] != c
  {
    if s == [] then -1
    else if s[0] == c then 0
    else
      var k := IndexOf(s[1..], c);
      if k == -1 then -1 else k + 1
  }

  /** `String.LastIndexOf(c)`: the last position of c, or -1. */
  function LastIndexOf(s: string, c: char): (r: int)
    ensures -1 <= r < |s|
    ensures r == -1 <==> c !in s
    ensures r >= 0 ==> s[r] == c && forall j :: r < j < |s| ==> s[j] != c
  {
    if s == [] then -1
    else if s[|s| - 1] == c then |s| - 1
    else LastIndexOf(s[..|s| - 1], c)
  }

  /** The reader's test for a character: present, and its first and last positions agree. */
  predicate Once(s: string, c: char) {
    IndexOf(s, c) != -1 && IndexOf(s, c) == LastIndexOf(s, c)
  }

  /** The test holds exactly when the character occurs at one position and no other. */
  lemma OnceExactly(s: string, c: char)
    ensures Once(s, c) <==> exists i :: 0 <= i < |s| && s[i] == c && forall j :: 0 <= j < |s| && s[j] == c ==> j == i
  {
    if !Once(s, c) && c in s {
      var first, last := IndexOf(s, c), LastIndexOf(s, c);
      assert first < last && s[first] == c && s[last] == c;
    }
  }

  /** A character at exactly one position is found there from both ends. */
  lemma UniqueAt(s: string, c: char, i: nat)
    requires i < |s| && s[i] == c
    requires forall j :: 0 <= j < |s| && s[j] == c ==> j == i
    ensures IndexOf(s, c) == i && LastIndexOf(s, c) == i
  {
  }

  /** A segment the reader acts on: non-empty, with one ':' and one ','. */
  predicate Accepted(s: string) {
    |s| != 0 && Once(s, ':') && Once(s, ',')
  }

  /**
   * A segment "id:x,y" whose parts hold neither separator is accepted, and
   * the reader's substrings are exactly the three parts.
   */
  lemma SegmentFields(id: string, x: string, y: string)
    requires ':' !in id && ':' !in x && ':' !in y
    requires ',' !in id && ',' !in x && ',' !in y
    ensures var s := id + ":" + x + "," + y;
      var cl, cm := IndexOf(s, ':'), IndexOf(s, ',');
      && Accepted(s) && cl == |id| && cm == |id| + 1 + |x|
      && s[..cl] == id && s[cl + 1..cm] == x && s[cm + 1..] == y
  {
    var s := id + ":" + x + "," + y;
    var cl, cm := |id|, |id| + 1 + |x|;
    forall j | 0 <= j < |s| && s[j] == ':'
      ensures j == cl
    {
    }
    forall j | 0 <= j < |s| && s[j] == ','
      ensures j == cm
    {
    }
    UniqueAt(s, ':', cl);
    UniqueAt(s, ',', cm);
    assert s[..cl] == id;
    assert s[cl + 1..cm] == x;
    assert s[cm + 1..] == y;
  }

  /** `line.StartsWith("0:")`. */
  predicate StartsWithZeroColon(line: string) {
    |line| >= 2 && line[..2] == "0:"
  }

  // ---------------------------------------------------------------------
  // What one segment does

  /** A segment as the reader reads it. */
  datatype Parsed =
    | Rejected                          // not accepted: the next segment follows
    | Throws                            // a substring or a conversion threw: the rest of the line is dropped
    | Fields(id: nat, x: int, y: int)   // the mouse id and its deltas

  /**
   * The reader's parse of one segment: the text before the ':', between it
   * and the ',', and after the ','. The middle substring has a negative
   * length, and throws, when the ',' comes before the ':'.
   */
  function ParseSegment(s: string, toUInt32: string -> Option<nat>, toInt32: string -> Option<int>): (r: Parsed)
    ensures r.Rejected? <==> !Accepted(s)
    ensures r.Fields? ==> IndexOf(s, ':') < IndexOf(s, ',')
  {
    if !Accepted(s) then Rejected
    else
      var cl, cm := IndexOf(s, ':'), IndexOf(s, ',');
      if cm < cl then Throws
      else
        var id, x, y := toUInt32(s[..cl]), toInt32(s[cl + 1..cm]), toInt32(s[cm + 1..]);
        if id.None? || x.None? || y.None? then Throws else Fields(id.value, x.value, y.value)
  }

  /**
   * A segment is rejected exactly when it is not accepted; its fields are
   * the conversions of the text before the ':', between the ':' and the
   * ',', and after the ','; and it throws exactly when it is accepted but
   * the ',' comes first or a conversion fails.
   */
  lemma ParseSegmentMeaning(s: string, toUInt32: string -> Option<nat>, toInt32: string -> Option<int>)
    ensures var r := ParseSegment(s, toUInt32, toInt32);
      && (r.Rejected? <==> !Accepted(s))
      && (r.Fields? ==>
            var cl, cm := IndexOf(s, ':'), IndexOf(s, ',');
            && 0 <= cl < cm
            && toUInt32(s[..cl]) == Some(r.id) && toInt32(s[cl + 1..cm]) == Some(r.x) && toInt32(s[cm + 1..]) == Some(r.y))
      && (r.Throws? <==>
            && Accepted(s)
            && var cl, cm := IndexOf(s, ':'), IndexOf(s, ',');
               cm < cl || toUInt32(s[..cl]).None? || toInt32(s[cl + 1..cm]).None? || toInt32(s[cm + 1..]).None?)
  {
  }

  /** The message a move is reported as: z is 0, and the id is the system id. */
  function MovementEvent(sensor: nat, x: int, y: int, index: nat): Message {
    MovementData(x, y, 0, sensor, index, SystemMsgId)
  }

  /**
   * The table and the reported messages after the segments of a line, from
   * the first. A mouse id without an entry throws on the lookup; a
   * standstill reported for a mouse standing still changes nothing; any
   * other delta replaces the mouse's vector and is reported. What throws
   * ends the line, keeping what the segments before it did.
   */
  function ProcessSegments(last: map<nat, (int, int)>, segs: seq<string>, index: nat,
                           toUInt32: string -> Option<nat>, toInt32: string -> Option<int>)
    : (r: (map<nat, (int, int)>, seq<Message>))
    ensures r.0.Keys == last.Keys
    ensures |r.1| <= |segs|
    decreases |segs|
  {
    if segs == [] then (last, [])
    else match ParseSegment(segs[0], toUInt32, toInt32)
      case Rejected => ProcessSegments(last, segs[1..], index, toUInt32, toInt32)
      case Throws => (last, [])
      case Fields(id, x, y) =>
        if id !in last then (last, [])
        else if x == 0 && y == 0 && last[id] == (0, 0) then ProcessSegments(last, segs[1..], index, toUInt32, toInt32)
        else
          var rest := ProcessSegments(last[id := (x, y)], segs[1..], index, toUInt32, toInt32);
          (rest.0, [MovementEvent(id, x, y, index)] + rest.1)
  }

  /** A numeral holds neither separator. */
  lemma NumeralFree(a: string)
    requires AllDigits(a)
    ensures ':' !in a && ',' !in a
  {
  }

  /** A segment of three numerals is read as their three values. */
  lemma NumeralSegment(a: string, b: string, c: string, id: nat, x: int, y: int,
                       toUInt32: string -> Option<nat>, toInt32: string -> Option<int>)
    requires AllDigits(a) && AllDigits(b) && AllDigits(c)
    requires toUInt32(a) == Some(id) && toInt32(b) == Some(x) && toInt32(c) == Some(y)
    ensures ParseSegment(a + ":" + b + "," + c, toUInt32, toInt32) == Fields(id, x, y)
  {
    NumeralFree(a);
    NumeralFree(b);
    NumeralFree(c);
    SegmentFields(a, b, c);
    ParseSegmentMeaning(a + ":" + b + "," + c, toUInt32, toInt32);
  }

  /** A line of one segment naming a known mouse: a standstill repeated is dropped, anything else recorded and reported. */
  lemma OneSegmentLine(last: map<nat, (int, int)>, s: string, id: nat, x: int, y: int, index: nat,
                       toUInt32: string -> Option<nat>, toInt32: string -> Option<int>)
    requires ParseSegment(s, toUInt32, toInt32) == Fields(id, x, y) && id in last
    ensures ProcessSegments(last, [s], index, toUInt32, toInt32)
         == if x == 0 && y == 0 && last[id] == (0, 0) then (last, []) else (last[id := (x, y)], [MovementEvent(id, x, y, index)])
  {
    assert [s][0] == s && [s][1..] == [];
    assert ProcessSegments(last, [], index, toUInt32, toInt32) == (last, []);
    assert ProcessSegments(last[id := (x, y)], [], index, toUInt32, toInt32) == (last[id := (x, y)], []);
    assert [MovementEvent(id, x, y, index)] + [] == [MovementEvent(id, x, y, index)];
  }

  /**
   * A line of one segment, written as numerals, for a mouse already
   * standing still and reporting a standstill changes nothing.
   */
  lemma StillLineIsSilent(last: map<nat, (int, int)>, a: string, b: string, c: string, id: nat, index: nat,
                          toUInt32: string -> Option<nat>, toInt32: string -> Option<int>)
    requires AllDigits(a) && AllDigits(b) && AllDigits(c)
    requires toUInt32(a) == Some(id) && toInt32(b) == Some(0) && toInt32(c) == Some(0)
    requires id in last && last[id] == (0, 0)
    ensures ProcessSegments(last, [a + ":" + b + "," + c], index, toUInt32, toInt32) == (last, [])
  {
    NumeralSegment(a, b, c, id, 0, 0, toUInt32, toInt32);
    OneSegmentLine(last, a + ":" + b + "," + c, id, 0, 0, index, toUInt32, toInt32);
  }

  /**
   * A line of one segment, written as numerals, that moves a known mouse
   * updates that mouse only, and reports it once.
   */
  lemma MoveLineUpdatesOne(last: map<nat, (int, int)>, a: string, b: string, c: string, id: nat, x: int, y: int,
                           index: nat, toUInt32: string -> Option<nat>, toInt32: string -> Option<int>)
    requires AllDigits(a) && AllDigits(b) && AllDigits(c)
    requires toUInt32(a) == Some(id) && toInt32(b) == Some(x) && toInt32(c) == Some(y)
    requires id in last && (x != 0 || y != 0)
    ensures ProcessSegments(last, [a + ":" + b + "," + c], index, toUInt32, toInt32)
         == (last[id := (x, y)], [MovementEvent(id, x, y, index)])
  {
    NumeralSegment(a, b, c, id, x, y, toUInt32, toInt32);
    OneSegmentLine(last, a + ":" + b + "," + c, id, x, y, index, toUInt32, toInt32);
  }

  /** The segments from position i on: what segment i does, then the rest. */
  lemma ProcessFrom(last: map<nat, (int, int)>, segs: seq<string>, i: nat, index: nat,
                    toUInt32: string -> Option<nat>, toInt32: string -> Option<int>)
    requires i < |segs|
    ensures var here := ProcessSegments(last, segs[i..], index, toUInt32, toInt32);
      var next := ProcessSegments(last, segs[i + 1..], index, toUInt32, toInt32);
      match ParseSegment(segs[i], toUInt32, toInt32)
      case Rejected => here == next
      case Throws => here == (last, [])
      case Fields(id, x, y) =>
        if id !in last then here == (last, [])
        else if x == 0 && y == 0 && last[id] == (0, 0) then here == next
        else
          var rest := ProcessSegments(last[id := (x, y)], segs[i + 1..], index, toUInt32, toInt32);
          here == (rest.0, [MovementEvent(id, x, y, index)] + rest.1)
  {
    assert segs[i..][0] == segs[i] && segs[i..][1..] == segs[i + 1..];
  }

  class QuadMouseDevice {
    const name: string
    const identifier: string
    /** The index the device manager assigned; the reported messages carry it. */
    const index: nat
    var table: HandlerTable
    /** `_last`: the last vector of each mouse. */
    var last: map<nat, (int, int)>
    /** The messages the device emitted. */
    var emitted: seq<Message>
    /** Whether the reader was cancelled and the port closed. */
    var closed: bool
    /** How many DeviceRemoved events the device raised. */
    var removedEvents: nat

    constructor (name: string, identifier: string, index: nat)
      ensures this.name == name && this.identifier == identifier && this.index == index
      ensures table == QuadMouseTable() && last == InitialLast()
      ensures emitted == [] && !closed && removedEvents == 0
    {
      this.name := name;
      this.identifier := identifier;
      this.index := index;
      emitted := [];
      closed := false;
      removedEvents := 0;
      table := map[];
      last := map[];
      new;
      table := table[StopDeviceCmdType := NoAttributes];
      table := table[StartMovementCmdType := NoAttributes];
      table := table[StopMovementCmdType := NoAttributes];
      last := last[0 := (0, 0)];
      last := last[1 := (0, 0)];
      last := last[2 := (0, 0)];
      last := last[3 := (0, 0)];
    }

    /**
     * One line read by `deltaReader`: ignored unless it starts with "0:";
     * otherwise its ';'-separated segments are applied in order, and a
     * segment that throws drops the rest of the line.
     */
    method HandleLine(line: string, toUInt32: string -> Option<nat>, toInt32: string -> Option<int>)
      modifies this`last, this`emitted
      ensures !StartsWithZeroColon(line) ==> last == old(last) && emitted == old(emitted)
      ensures StartsWithZeroColon(line) ==>
        var r := ProcessSegments(old(last), Split(line, ';'), index, toUInt32, toInt32);
        last == r.0 && emitted == old(emitted) + r.1
    {
      if !StartsWithZeroColon(line) {
        return;
      }
      var segs := Split(line, ';');
      ghost var total := ProcessSegments(last, segs, index, toUInt32, toInt32);
      var i := 0;
      while i < |segs|
        invariant 0 <= i <= |segs|
        invariant ProcessSegments(last, segs[i..], index, toUInt32, toInt32).0 == total.0
        invariant old(emitted) + total.1 == emitted + ProcessSegments(last, segs[i..], index, toUInt32, toInt32).1
      {
        var s := segs[i];
        ProcessFrom(last, segs, i, index, toUInt32, toInt32);
        var parsed := ParseSegment(s, toUInt32, toInt32);
        if parsed.Rejected? {
          i := i + 1;
          continue;
        }
        if parsed.Throws? {
          return;
        }
        var id, x, y := parsed.id, parsed.x, parsed.y;
        if id !in last {
          return;
        }
        if x == 0 && y == 0 && last[id] == (0, 0) {
          i := i + 1;
          continue;
        }
        ghost var rest := ProcessSegments(last[id := (x, y)], segs[i + 1..], index, toUInt32, toInt32);
        assert emitted + ([MovementEvent(id, x, y, index)] + rest.1) == emitted + [MovementEvent(id, x, y, index)] + rest.1;
        last := last[id := (x, y)];
        emitted := emitted + [MovementEvent(id, x, y, index)];
        i := i + 1;
      }
    }

    /** `HandleStopDeviceCmd`: acknowledged; the device has nothing to stop. */
    method HandleStopDeviceCmd(m: Message) returns (reply: Message)
      requires IsDeviceMessage(m)
      ensures reply == Ok(m.id)
    {
      return Ok(m.id);
    }

    /** `HandleStartMovementCmd`: acknowledged; the reader reports movement regardless. */
    method HandleStartMovementCmd(m: Message) returns (reply: Message)
      requires IsDeviceMessage(m)
      ensures reply == Ok(m.id)
    {
      return Ok(m.id);
    }

    /** `HandleStopMovementCmd`: acknowledged; the reader keeps reporting. */
    method HandleStopMovementCmd(m: Message) returns (reply: Message)
      requires IsDeviceMessage(m)
      ensures reply == Ok(m.id)
    {
      return Ok(m.id);
    }

    /** `Disconnect`: the reader cancelled, the port closed, and one DeviceRemoved raised. */
    method Disconnect()
      modifies this`closed, this`removedEvents
      ensures closed && removedEvents == old(removedEvents) + 1
    {
      closed := true;
      removedEvents := removedEvents + 1;
    }
  }
}
