/**
 * The broker's multiplexing queue ("muxer"): an in-memory list of events with
 * a read cursor, a counter of queued events, a size limit, and an overflow
 * queue file that takes events once the memory list is full and gives them back
 * as acknowledgements free room. The persistent files are modelled as FIFO
 * sequences of events.
 */
module Muxer {
  import opened Common

  const Uint32Max: nat := 0xFFFF_FFFF

  /** An event, reduced to its type id (for the filters) and an opaque payload. */
  datatype Event = Event(typeId: nat, payload: int)

  /**
   * The queue state. `pos` is the index of the next event to read, so
   * `events[..pos]` have been read but not yet acknowledged; `pos == |events|`
   * is the end iterator. `file` is what the queue file still holds and
   * `fileOpen` whether a queue file is open at all.
   */
  datatype MuxerState = MuxerState(
    events: seq<Event>, pos: nat, eventsSize: nat, file: seq<Event>, fileOpen: bool)

  predicate Valid(s: MuxerState)
  {
    && s.pos <= |s.events|
    && s.eventsSize == |s.events|
    && (!s.fileOpen ==> s.file == [])
  }

  /**
   * Events wait in the file only while the memory list is full. This is what
   * keeps the overall order first-in first-out.
   */
  predicate Ordered(s: MuxerState, maxSize: nat)
  {
    |s.events| < maxSize ==> s.file == []
  }

  /** All queued events, memory first, then the file. */
  function Stream(s: MuxerState): seq<Event>
  {
    s.events + s.file
  }

  function Min(a: nat, b: nat): nat { if a < b then a else b }

  /** `event_queue_max_size(max)`: 0 stands for no limit, i.e. the largest 32-bit value. */
  function QueueMaxSize(requested: nat): (m: nat)
    requires requested <= Uint32Max
    ensures requested == 0 ==> m == Uint32Max
    ensures requested != 0 ==> m == requested
    ensures 1 <= m <= Uint32Max
  {
    if requested == 0 then Uint32Max else requested
  }

  /** `_push_to_queue`: append and count; a cursor at the end now points at the new event. */
  function AfterPush(s: MuxerState, e: Event): (r: MuxerState)
    requires Valid(s)
    ensures Valid(r)
    ensures r.events == s.events + [e] && r.eventsSize == s.eventsSize + 1
    ensures r.pos == s.pos && r.file == s.file && r.fileOpen == s.fileOpen
    ensures s.pos == |s.events| ==> r.events[r.pos] == e
  {
    s.(events := s.events + [e], eventsSize := s.eventsSize + 1)
  }

  /**
   * `publish`: a null event or one whose type the write filters do not accept is
   * dropped; once the counter has reached the limit the event goes to the queue
   * file (opened if needed), otherwise to memory.
   */
  function AfterPublish(s: MuxerState, event: Option<Event>, writeFilters: set<nat>, maxSize: nat): (r: MuxerState)
    requires Valid(s)
    ensures Valid(r)
    ensures event.None? || event.value.typeId !in writeFilters ==> r == s
    ensures event.Some? && event.value.typeId in writeFilters && s.eventsSize >= maxSize ==>
      r == s.(file := s.file + [event.value], fileOpen := true)
    ensures event.Some? && event.value.typeId in writeFilters && s.eventsSize < maxSize ==>
      r.events == s.events + [event.value] && r.eventsSize == s.eventsSize + 1
      && r.pos == s.pos && r.file == s.file && r.fileOpen == s.fileOpen
  {
    if event.None? || event.value.typeId !in writeFilters then s
    else if s.eventsSize >= maxSize then s.(file := s.file + [event.value], fileOpen := true)
    else AfterPush(s, event.value)
  }

  /** How many events `ack_events(count)` pops: never the one under the cursor. */
  function Popped(count: int, pos: nat): (k: nat)
    ensures k <= pos
    ensures count <= 0 ==> k == 0
    ensures count > 0 ==> k == Min(count, pos)
  {
    if count <= 0 then 0 else Min(count, pos)
  }

  /** How many events the refill takes from the file. */
  function RefillCount(size: nat, fileLen: nat, maxSize: nat): (n: nat)
    ensures n <= fileLen
    ensures size >= maxSize ==> n == 0
    ensures size < maxSize ==> n == Min(maxSize - size, fileLen)
  {
    if size >= maxSize then 0 else Min(maxSize - size, fileLen)
  }

  /**
   * Moving events from the file into memory until the limit is reached or the
   * file is exhausted; reading past the end of the file closes it.
   */
  function AfterRefill(s: MuxerState, maxSize: nat): (r: MuxerState)
    requires Valid(s)
    ensures Valid(r)
  {
    var n := RefillCount(s.eventsSize, |s.file|, maxSize);
    s.(events := s.events + s.file[..n],
       eventsSize := s.eventsSize + n,
       file := s.file[n..],
       fileOpen := s.fileOpen && s.eventsSize + |s.file| >= maxSize)
  }

  /** `ack_events(count)`: a count of 0 does nothing; otherwise pop, then refill. */
  function AfterAck(s: MuxerState, count: int, maxSize: nat): (r: MuxerState)
    requires Valid(s)
    ensures Valid(r)
  {
    if count == 0 then s
    else
      AfterRefill(PoppedState(s, Popped(count, s.pos)), maxSize)
  }

  /** `read` when an event is available: it is the one under the cursor, which advances. */
  function AfterRead(s: MuxerState): (r: (MuxerState, Option<Event>))
    requires Valid(s)
    ensures Valid(r.0)
    ensures s.pos < |s.events| ==> r.1 == Some(s.events[s.pos]) && r.0 == s.(pos := s.pos + 1)
    ensures s.pos == |s.events| ==> r.1 == None && r.0 == s
  {
    if s.pos < |s.events| then (s.(pos := s.pos + 1), Some(s.events[s.pos])) else (s, None)
  }

  /** `nack_events`: the cursor goes back to the front, the queue is untouched. */
  function AfterNack(s: MuxerState): (r: MuxerState)
    requires Valid(s)
    ensures Valid(r) && r.pos == 0
    ensures r.events == s.events && r.file == s.file && r.eventsSize == s.eventsSize && r.fileOpen == s.fileOpen
  {
    s.(pos := 0)
  }

  /** The refill moves events from the front of the file to the end of memory. */
  lemma RefillKeepsStream(s: MuxerState, maxSize: nat)
    requires Valid(s)
    ensures Stream(AfterRefill(s, maxSize)) == Stream(s)
    ensures AfterRefill(s, maxSize).pos == s.pos
  {
    var n := RefillCount(s.eventsSize, |s.file|, maxSize);
    assert s.file == s.file[..n] + s.file[n..];
  }

  /** The refill stops at the limit, or earlier only when the file is empty. */
  lemma RefillFillsUpToLimit(s: MuxerState, maxSize: nat)
    requires Valid(s)
    ensures |s.events| < maxSize ==>
      |AfterRefill(s, maxSize).events| <= maxSize
      && (|AfterRefill(s, maxSize).events| == maxSize || AfterRefill(s, maxSize).file == [])
    ensures |s.events| >= maxSize ==> AfterRefill(s, maxSize) == s
  {
  }

  /** The state `ack_events` refills from: the first k events popped. */
  function PoppedState(s: MuxerState, k: nat): (r: MuxerState)
    requires Valid(s) && k <= s.pos
    ensures Valid(r)
    ensures s.events == s.events[..k] + r.events
  {
    s.(events := s.events[k..], pos := s.pos - k, eventsSize := s.eventsSize - k)
  }

  /** Acknowledging removes exactly the oldest events already read, and keeps the order of the rest. */
  lemma AckRemovesReadPrefix(s: MuxerState, count: int, maxSize: nat)
    requires Valid(s)
    ensures count != 0 ==> Stream(s) == s.events[..Popped(count, s.pos)] + Stream(AfterAck(s, count, maxSize))
    ensures count != 0 ==> AfterAck(s, count, maxSize).pos == s.pos - Popped(count, s.pos)
    ensures count == 0 ==> AfterAck(s, count, maxSize) == s
  {
    if count != 0 {
      var k := Popped(count, s.pos);
      var t := PoppedState(s, k);
      assert AfterAck(s, count, maxSize) == AfterRefill(t, maxSize);
      RefillKeepsStream(t, maxSize);
      assert Stream(s) == s.events[..k] + Stream(t);
    }
  }

  /** Acknowledging everything read so far pops exactly the events read. */
  lemma AckAllRead(s: MuxerState, maxSize: nat)
    requires Valid(s) && s.pos > 0
    ensures AfterAck(s, s.pos, maxSize).pos == 0
    ensures Stream(s) == s.events[..s.pos] + Stream(AfterAck(s, s.pos, maxSize))
  {
    AckRemovesReadPrefix(s, s.pos, maxSize);
  }

  /** Publishing never reorders: an accepted event joins the end of the stream. */
  lemma PublishAppends(s: MuxerState, e: Event, writeFilters: set<nat>, maxSize: nat)
    requires Valid(s) && Ordered(s, maxSize)
    requires e.typeId in writeFilters
    ensures Ordered(AfterPublish(s, Some(e), writeFilters, maxSize), maxSize)
    ensures Stream(AfterPublish(s, Some(e), writeFilters, maxSize)) == Stream(s) + [e]
  {
    if s.eventsSize < maxSize {
      assert s.file == [];
    }
  }

  /** Acknowledging keeps the first-in first-out arrangement. */
  lemma AckKeepsOrdered(s: MuxerState, count: int, maxSize: nat)
    requires Valid(s) && Ordered(s, maxSize)
    ensures Ordered(AfterAck(s, count, maxSize), maxSize)
  {
    if count != 0 {
      RefillFillsUpToLimit(PoppedState(s, Popped(count, s.pos)), maxSize);
    }
  }

  /** Reading and going back leave the queued events alone. */
  lemma ReadAndNackKeepStream(s: MuxerState)
    requires Valid(s)
    ensures Stream(AfterRead(s).0) == Stream(s) && Stream(AfterNack(s)) == Stream(s)
  {
  }

  /**
   * The cursor the constructor leaves, as the code is written: `_pos` is taken
   * as `begin()` after the memory file is loaded and before the queue file is.
   * When the memory file gave nothing, `begin()` is the end iterator of an empty
   * list, and the events then appended from the queue file all sit before it.
   */
  function InitialPosAsWritten(memoryCount: nat, loadedCount: nat): (p: nat)
    ensures memoryCount > 0 ==> p == 0
    ensures memoryCount == 0 ==> p == loadedCount
  {
    if memoryCount > 0 then 0 else loadedCount
  }

  /** As written, events recovered from the queue file alone are not read before a nack. */
  lemma RecoveredEventsUnreadable(loaded: seq<Event>)
    requires |loaded| > 0
    ensures var s := MuxerState(loaded, InitialPosAsWritten(0, |loaded|), |loaded|, [], false);
      Valid(s) && AfterRead(s).1 == None
  {
  }

  /**
   * The as-written cursor only delays those events: once `nack_events` rewinds
   * it, the first recovered event is the next one read.
   */
  lemma RecoveredReadAfterNack(loaded: seq<Event>)
    requires |loaded| > 0
    ensures var s := MuxerState(loaded, InitialPosAsWritten(0, |loaded|), |loaded|, [], false);
      Valid(s) && AfterRead(AfterNack(s)).1 == Some(loaded[0])
  {
  }

  /** With the intended cursor, the first recovered event is the first one read. */
  lemma RecoveredEventsReadable(memory: seq<Event>, loaded: seq<Event>)
    requires |memory| + |loaded| > 0
    ensures var all := memory + loaded;
      var s := MuxerState(all, 0, |all|, [], false);
      Valid(s) && AfterRead(s).1 == Some(all[0])
  {
  }

  class MuxerQueue {
    var events: seq<Event>
    var pos: nat
    var eventsSize: nat
    var file: seq<Event>
    var fileOpen: bool
    var maxSize: nat
    const readFilters: set<nat>
    const writeFilters: set<nat>

    function State(): MuxerState
      reads this
    {
      MuxerState(events, pos, eventsSize, file, fileOpen)
    }

    ghost predicate Invariant()
      reads this
    {
      Valid(State()) && 1 <= maxSize <= Uint32Max
    }

    /**
     * Loads the memory file (when persistent), then moves events from the queue
     * file while the counter is below the limit; the do-while reads at least
     * once. The cursor is put on the first queued event, which the code as
     * written does only when the memory file gave something (InitialPosAsWritten).
     */
    constructor (rFilters: set<nat>, wFilters: set<nat>, persistent: bool,
                 memoryFile: seq<Event>, queueFile: seq<Event>, limit: nat)
      requires 1 <= limit <= Uint32Max
      ensures Invariant() && readFilters == rFilters && writeFilters == wFilters && maxSize == limit
      ensures var memory := if persistent then memoryFile else [];
        var n := if |memory| >= limit then Min(1, |queueFile|) else Min(limit - |memory|, |queueFile|);
        && events == memory + queueFile[..n]
        && file == queueFile[n..]
        && pos == 0
        && fileOpen == (if |memory| >= limit then |queueFile| >= 1 else |memory| + |queueFile| >= limit)
    {
      readFilters, writeFilters, maxSize := rFilters, wFilters, limit;
      var memory: seq<Event> := if persistent then memoryFile else [];
      events := memory;
      eventsSize := |memory|;
      pos := 0;
      file, fileOpen := queueFile, true;
      new;
      LoadQueueFile();
    }

    /**
     * The constructor's do-while over the open queue file: at least one read,
     * then more while the counter is below the limit.
     */
    method LoadQueueFile()
      requires Invariant() && fileOpen && pos == 0
      modifies this`events, this`eventsSize, this`pos, this`file, this`fileOpen
      ensures Invariant() && pos == 0
      ensures var n := if |old(events)| >= maxSize then Min(1, |old(file)|) else Min(maxSize - |old(events)|, |old(file)|);
        && events == old(events) + old(file)[..n]
        && file == old(file)[n..]
        && fileOpen == (if |old(events)| >= maxSize then |old(file)| >= 1 else |old(events)| + |old(file)| >= maxSize)
    {
      ghost var start := State();
      ghost var i: nat := 0;
      while true
        invariant Invariant() && pos == 0 && fileOpen
        invariant i <= |start.file|
        invariant events == start.events + start.file[..i] && file == start.file[i..]
        invariant i == 0 || |start.events| + i < maxSize
        decreases |file|
      {
        var e := GetEventFromFile();
        if e.None? {
          assert i == |start.file|;
          break;
        }
        assert start.file[..i + 1] == start.file[..i] + [start.file[i]];
        PushToQueue(e.value);
        i := i + 1;
        if eventsSize >= maxSize {
          assert i == 1 || |start.events| + i == maxSize;
          break;
        }
      }
    }

    /** `_get_event_from_file`: the next event of the open file; at its end the file is closed. */
    method GetEventFromFile() returns (e: Option<Event>)
      requires Invariant()
      modifies this`file, this`fileOpen
      ensures Invariant()
      ensures !old(fileOpen) ==> e == None && file == old(file) && fileOpen == old(fileOpen)
      ensures old(fileOpen) && old(file) == [] ==> e == None && file == [] && !fileOpen
      ensures old(fileOpen) && old(file) != [] ==> e == Some(old(file)[0]) && file == old(file)[1..] && fileOpen
    {
      e := None;
      if fileOpen {
        if file == [] {
          fileOpen := false;
        } else {
          e := Some(file[0]);
          file := file[1..];
        }
      }
    }

    /** `event_queue_max_size`: 0 selects the largest 32-bit value. */
    method SetEventQueueMaxSize(requested: nat)
      requires requested <= Uint32Max && Invariant()
      modifies this`maxSize
      ensures Invariant() && maxSize == QueueMaxSize(requested)
    {
      if requested == 0 {
        maxSize := Uint32Max;
      } else {
        maxSize := requested;
      }
    }

    method Publish(event: Option<Event>)
      requires Invariant()
      modifies this
      ensures Invariant() && maxSize == old(maxSize)
      ensures State() == AfterPublish(old(State()), event, writeFilters, maxSize)
    {
      if event.Some? {
        if event.value.typeId !in writeFilters {
          return;
        }
        if eventsSize >= maxSize {
          if !fileOpen {
            file, fileOpen := [], true;
          }
          file := file + [event.value];
        } else {
          PushToQueue(event.value);
        }
      }
    }

    method PushToQueue(e: Event)
      requires Invariant()
      modifies this`events, this`eventsSize, this`pos
      ensures Invariant() && maxSize == old(maxSize)
      ensures State() == AfterPush(old(State()), e)
    {
      var posHasNoMoreToRead := pos == |events|;
      events := events + [e];
      eventsSize := eventsSize + 1;
      if posHasNoMoreToRead {
        pos := |events| - 1;
      }
    }

    /**
     * `read` when it need not wait. With nothing available the source waits on
     * a condition variable; here the end of that wait is an input, `timedOut`.
     */
    method Read(timedOut: bool) returns (event: Option<Event>, ok: bool)
      requires Invariant()
      modifies this`pos
      ensures Invariant()
      ensures (State(), event) == AfterRead(old(State()))
      ensures ok == (old(pos) < |events| || !timedOut)
    {
      if pos == |events| {
        event := None;
        ok := !timedOut;
      } else {
        event := Some(events[pos]);
        pos := pos + 1;
        ok := true;
      }
    }

    method AckEvents(count: int)
      requires Invariant()
      modifies this
      ensures Invariant() && maxSize == old(maxSize)
      ensures State() == AfterAck(old(State()), count, maxSize)
    {
      if count == 0 {
        return;
      }
      ghost var start := State();
      var i := 0;
      while i < count && |events| > 0
        invariant Invariant() && maxSize == old(maxSize)
        invariant file == start.file && fileOpen == start.fileOpen
        invariant 0 <= i <= Popped(count, start.pos)
        invariant events == start.events[i..] && pos == start.pos - i && eventsSize == start.eventsSize - i
        decreases |events|
      {
        if pos == 0 {
          break;
        }
        events := events[1..];
        pos := pos - 1;
        eventsSize := eventsSize - 1;
        i := i + 1;
      }
      assert i == Popped(count, start.pos);
      assert State() == PoppedState(start, i);
      Refill();
    }

    /** The refill loop of `ack_events`: events move from the file to memory while there is room. */
    method Refill()
      requires Invariant()
      modifies this`events, this`eventsSize, this`pos, this`file, this`fileOpen
      ensures Invariant()
      ensures State() == AfterRefill(old(State()), maxSize)
    {
      ghost var start := State();
      ghost var n := RefillCount(start.eventsSize, |start.file|, maxSize);
      ghost var j: nat := 0;
      while eventsSize < maxSize
        invariant Invariant() && fileOpen == start.fileOpen
        invariant pos == start.pos && j <= |start.file|
        invariant j == 0 || start.eventsSize + j <= maxSize
        invariant events == start.events + start.file[..j] && file == start.file[j..]
        decreases |file|
      {
        var e := GetEventFromFile();
        if e.None? {
          assert j == |start.file| && j == n;
          break;
        }
        assert start.file[..j + 1] == start.file[..j] + [start.file[j]];
        PushToQueue(e.value);
        j := j + 1;
      }
      assert j == n || fileOpen == false;
    }

    method NackEvents()
      requires Invariant()
      modifies this`pos
      ensures Invariant() && State() == AfterNack(old(State()))
    {
      pos := 0;
    }

    /** `write`: an event the read filters accept is handed to the engine (returned here). */
    method Write(d: Option<Event>) returns (forwarded: Option<Event>, r: int)
      ensures r == 1
      ensures forwarded == (if d.Some? && d.value.typeId in readFilters then d else None)
    {
      forwarded := if d.Some? && d.value.typeId in readFilters then d else None;
      r := 1;
    }
  }
}
