/** The persisted temperature level of every disk, as the collector keeps it poll after poll. */
module TemperatureStates {
  import opened Prelude
  import opened Hysteresis

  datatype Slot = Slot(enclosure: int, slot: int)

  datatype Disk = Disk(place: Slot, serial: string)

  datatype Drive = Drive(disk: Disk, temperature: Option<int>)

  type Levels = map<Disk, Level>

  /** A complete inventory lists every slot at most once. */
  ghost predicate Inventory(drives: seq<Drive>) {
    forall i, j :: 0 <= i < j < |drives| ==> drives[i].disk.place != drives[j].disk.place
  }

  function Places(drives: seq<Drive>): set<Slot> {
    set d | d in drives :: d.disk.place
  }

  function Disks(drives: seq<Drive>): set<Disk> {
    set d | d in drives :: d.disk
  }

  /** Slots that hold another disk than before, or hold one at last. */
  function Replaced(previous: Option<seq<Drive>>, current: seq<Drive>): set<Slot> {
    if previous.None? then {} else
      set d | d in current && d.disk !in Disks(previous.value) :: d.disk.place
  }

  /** Slots whose persisted levels are dropped: replaced or emptied. */
  function Cleared(previous: Option<seq<Drive>>, current: seq<Drive>): set<Slot> {
    if previous.None? then {} else
      Replaced(previous, current) + (Places(previous.value) - Places(current))
  }

  function FromReading(t: int, c: Thresholds): Level {
    if t >= c.critical then Critical else if t >= c.warning then Warning else Normal
  }

  /** The reading of a disk in a snapshot. */
  function ReadingOf(drives: seq<Drive>, disk: Disk): Option<int> {
    if drives == [] then None
    else if drives[0].disk == disk then drives[0].temperature
    else ReadingOf(drives[1..], disk)
  }

  lemma {:induction false} ReadingOfListed(drives: seq<Drive>, i: nat)
    requires Inventory(drives) && i < |drives|
    ensures ReadingOf(drives, drives[i].disk) == drives[i].temperature
  {
    if i == 0 {
    } else {
      ReadingOfListed(drives[1..], i - 1);
    }
  }

  lemma {:induction false} ReadingOfAbsent(drives: seq<Drive>, disk: Disk)
    requires disk !in Disks(drives)
    ensures ReadingOf(drives, disk).None?
  {
    if drives == [] {
    } else {
      assert drives[0] in drives;
      assert forall d :: d in drives[1..] ==> d in drives;
      ReadingOfAbsent(drives[1..], disk);
    }
  }

  /** The level that the previous snapshot's reading alone would give. */
  function FromPrevious(previous: Option<seq<Drive>>, disk: Disk, c: Thresholds): Level {
    if previous.Some? && ReadingOf(previous.value, disk).Some?
    then FromReading(ReadingOf(previous.value, disk).value, c) else Normal
  }

  /** The level a disk starts this poll from. */
  function Initial(stored: Levels, previous: Option<seq<Drive>>, current: seq<Drive>, disk: Disk,
                   c: Thresholds): Level {
    if disk.place in Replaced(previous, current) then Normal
    else if disk in stored then stored[disk]
    else FromPrevious(previous, disk, c)
  }

  /** The level a poll gives a disk that has a reading. */
  function Settling(stored: Levels, previous: Option<seq<Drive>>, current: seq<Drive>, disk: Disk, c: Thresholds): Level
    requires ReadingOf(current, disk).Some?
  {
    Settled(Initial(stored, previous, current, disk, c), ReadingOf(current, disk).value, c)
  }

  /** The table after a poll: slots cleared first, then a level for every reading. */
  function Next(stored: Levels, previous: Option<seq<Drive>>, current: seq<Drive>, c: Thresholds): Levels {
    (map k | k in stored && k.place !in Cleared(previous, current) :: stored[k])
    + (map k | k in Disks(current) && ReadingOf(current, k).Some? :: Settling(stored, previous, current, k, c))
  }

  datatype DiskEvent = DiskEvent(disk: Disk, event: TempEvent)

  function EventsOf(events: seq<DiskEvent>, disk: Disk): seq<TempEvent> {
    if events == [] then [] else
      EventsOf(events[..|events| - 1], disk)
      + if events[|events| - 1].disk == disk then [events[|events| - 1].event] else []
  }

  function Tagged(disk: Disk, events: seq<TempEvent>): seq<DiskEvent> {
    seq(|events|, i requires 0 <= i < |events| => DiskEvent(disk, events[i]))
  }

  lemma {:induction false} EventsOfAppend(events: seq<DiskEvent>, disk: Disk, more: seq<TempEvent>, other: Disk)
    ensures EventsOf(events + Tagged(disk, more), other) ==
            if other == disk then EventsOf(events, other) + more else EventsOf(events, other)
    decreases |more|
  {
    if more == [] {
      assert events + Tagged(disk, more) == events;
    } else {
      var front, all := more[..|more| - 1], events + Tagged(disk, more);
      EventsOfAppend(events, disk, front, other);
      assert all[..|all| - 1] == events + Tagged(disk, front);
      assert front + [more[|more| - 1]] == more;
    }
  }

  /** What one poll emits for a disk. */
  function Emitted(stored: Levels, previous: Option<seq<Drive>>, current: seq<Drive>, disk: Disk,
                   c: Thresholds): seq<TempEvent> {
    if ReadingOf(current, disk).None? then [] else
      Path(Initial(stored, previous, current, disk, c), Settling(stored, previous, current, disk, c))
  }

  /** The events emitted for the first `i` drives of a poll. */
  ghost predicate EventsUpTo(events: seq<DiskEvent>, stored: Levels, previous: Option<seq<Drive>>,
                             current: seq<Drive>, i: nat, c: Thresholds)
    requires i <= |current|
  {
    forall k :: EventsOf(events, k) == if k in Disks(current[..i]) then Emitted(stored, previous, current, k, c) else []
  }

  lemma EventsGrow(events: seq<DiskEvent>, stored: Levels, previous: Option<seq<Drive>>, current: seq<Drive>, i: nat,
                   c: Thresholds)
    requires Inventory(current) && i < |current| && EventsUpTo(events, stored, previous, current, i, c)
    ensures var disk := current[i].disk;
      EventsUpTo(events + Tagged(disk, Emitted(stored, previous, current, disk, c)),
                 stored, previous, current, i + 1, c)
  {
    var disk := current[i].disk;
    var more := Emitted(stored, previous, current, disk, c);
    NewDisk(current, i);
    forall k ensures EventsOf(events + Tagged(disk, more), k) ==
                     if k in Disks(current[..i + 1]) then Emitted(stored, previous, current, k, c) else []
    {
      EventsOfAppend(events, disk, more, k);
    }
  }

  /** The levels a poll settles for some of its disks. */
  function SettledFor(stored: Levels, previous: Option<seq<Drive>>, current: seq<Drive>, disks: set<Disk>,
                      c: Thresholds): Levels {
    map k | k in disks && ReadingOf(current, k).Some? :: Settling(stored, previous, current, k, c)
  }

  lemma SettledForOneMore(stored: Levels, previous: Option<seq<Drive>>, current: seq<Drive>, disks: set<Disk>,
                          disk: Disk, c: Thresholds)
    ensures SettledFor(stored, previous, current, disks + {disk}, c) ==
            if ReadingOf(current, disk).None? then SettledFor(stored, previous, current, disks, c)
            else SettledFor(stored, previous, current, disks, c)[disk := Settling(stored, previous, current, disk, c)]
  {
  }

  lemma WholePoll(events: seq<DiskEvent>, stored: Levels, previous: Option<seq<Drive>>, current: seq<Drive>,
                  c: Thresholds)
    requires EventsUpTo(events, stored, previous, current, |current|, c)
    ensures forall k :: EventsOf(events, k) == Emitted(stored, previous, current, k, c)
  {
    assert current[..|current|] == current;
    NothingElse(stored, previous, current, c);
  }

  class Tracker {
    const c: Thresholds
    var stored: Levels
    var previous: Option<seq<Drive>>

    constructor (c: Thresholds)
      requires c.Valid()
      ensures this.c == c && stored == map[] && previous.None?
    {
      this.c, stored, previous := c, map[], None;
    }

    method DetectReplacements(current: seq<Drive>) returns (replaced: set<Slot>, clears: set<Slot>)
      ensures replaced == Replaced(previous, current) && clears == Cleared(previous, current)
    {
      replaced, clears := {}, {};
      if previous.None? {
        return;
      }
      var before := previous.value;
      for i := 0 to |before|
        invariant clears == Places(before[..i]) - Places(current)
      {
        assert before[..i + 1] == before[..i] + [before[i]];
        if before[i].disk.place !in Places(current) {
          clears := clears + {before[i].disk.place};
        }
      }
      assert before[..|before|] == before;
      for i := 0 to |current|
        invariant replaced == set d | d in current[..i] && d.disk !in Disks(before) :: d.disk.place
        invariant clears == (Places(before) - Places(current)) + replaced
      {
        assert current[..i + 1] == current[..i] + [current[i]];
        if current[i].disk !in Disks(before) {
          replaced := replaced + {current[i].disk.place};
          clears := clears + {current[i].disk.place};
        }
      }
      assert current[..|current|] == current;
    }

    /** The transitions of one drive; a drive without a reading keeps its level and is silent. */
    method DetectDrive(current: seq<Drive>, i: nat, replaced: set<Slot>) returns (events: seq<TempEvent>, level: Level)
      requires c.Valid() && Inventory(current) && i < |current| && replaced == Replaced(previous, current)
      ensures events == Emitted(stored, previous, current, current[i].disk, c)
      ensures current[i].temperature == ReadingOf(current, current[i].disk)
      ensures current[i].temperature.Some? ==> level == Settling(stored, previous, current, current[i].disk, c)
    {
      var disk := current[i].disk;
      ReadingOfListed(current, i);
      var initial := if disk.place in replaced then Normal
                     else if disk in stored then stored[disk] else FromPrevious(previous, disk, c);
      events, level := Transitions(current[i].temperature, initial, c);
    }

    method DetectTemperatures(current: seq<Drive>, replaced: set<Slot>)
      returns (events: seq<DiskEvent>, updates: Levels)
      requires c.Valid() && Inventory(current) && replaced == Replaced(previous, current)
      ensures updates == SettledFor(stored, previous, current, Disks(current), c)
      ensures forall k :: EventsOf(events, k) == Emitted(stored, previous, current, k, c)
    {
      events, updates := [], map[];
      NothingYet(stored, previous, current, c);
      for i := 0 to |current|
        invariant updates == SettledFor(stored, previous, current, Disks(current[..i]), c)
        invariant EventsUpTo(events, stored, previous, current, i, c)
      {
        var more, level := DetectDrive(current, i, replaced);
        EventsGrow(events, stored, previous, current, i, c);
        NewDisk(current, i);
        SettledForOneMore(stored, previous, current, Disks(current[..i]), current[i].disk, c);
        events := events + Tagged(current[i].disk, more);
        if current[i].temperature.Some? {
          updates := updates[current[i].disk := level];
        }
      }
      WholePoll(events, stored, previous, current, c);
      assert current[..|current|] == current;
    }

    /** Retention removes every snapshot; the table of levels stays. */
    method PruneSnapshots()
      modifies this`previous
      ensures previous.None?
    {
      previous := None;
    }

    /** One successful poll: detection, then the clears, then the new levels. */
    method RunOnce(current: seq<Drive>) returns (events: seq<DiskEvent>)
      requires c.Valid() && Inventory(current)
      modifies this
      ensures stored == Next(old(stored), old(previous), current, c) && previous == Some(current)
      ensures forall k :: EventsOf(events, k) == Emitted(old(stored), old(previous), current, k, c)
    {
      var replaced, clears := DetectReplacements(current);
      var updates: Levels;
      events, updates := DetectTemperatures(current, replaced);
      stored := map k | k in stored && k.place !in clears :: stored[k];
      stored := stored + updates;
      previous := Some(current);
    }
  }

  lemma NothingYet(stored: Levels, previous: Option<seq<Drive>>, current: seq<Drive>, c: Thresholds)
    ensures EventsUpTo([], stored, previous, current, 0, c)
    ensures SettledFor(stored, previous, current, Disks(current[..0]), c) == map[]
  {
  }

  lemma NothingElse(stored: Levels, previous: Option<seq<Drive>>, current: seq<Drive>, c: Thresholds)
    ensures forall k :: k !in Disks(current) ==> Emitted(stored, previous, current, k, c) == []
  {
    forall k | k !in Disks(current) ensures Emitted(stored, previous, current, k, c) == [] {
      ReadingOfAbsent(current, k);
    }
  }

  lemma NewDisk(current: seq<Drive>, i: nat)
    requires Inventory(current) && i < |current|
    ensures current[i].disk !in Disks(current[..i])
    ensures Disks(current[..i + 1]) == Disks(current[..i]) + {current[i].disk}
  {
  }

  // ------------------------------------------------------------- whole runs

  /** After every poll, whatever came before, the stored level fits the reading. */
  lemma StoredLevelFits(stored: Levels, previous: Option<seq<Drive>>, current: seq<Drive>, disk: Disk, c: Thresholds)
    requires c.Valid() && disk in Disks(current) && ReadingOf(current, disk).Some?
    ensures var next := Next(stored, previous, current, c);
      disk in next && Band(next[disk], ReadingOf(current, disk).value, c)
  {
    SettledLevelFitsItsReading(Initial(stored, previous, current, disk, c), ReadingOf(current, disk).value, c);
  }

  /** A queued alert whose severity is the stored level is active at the reading that set it. */
  lemma StoredSeverityIsActive(stored: Levels, previous: Option<seq<Drive>>, current: seq<Drive>, disk: Disk,
                               s: Severity, c: Thresholds)
    requires c.Valid() && disk in Disks(current) && ReadingOf(current, disk).Some? && !s.Info?
    requires disk in Next(stored, previous, current, c) && Next(stored, previous, current, c)[disk] == LevelOf(s)
    ensures TemperatureRelevance(ReadingOf(current, disk), s, c, false) == Active
  {
  }

  /** A successful poll; it is blind when retention has left no snapshot of the polls before it. */
  datatype Poll = Poll(drives: seq<Drive>, blind: bool)

  /** The previous snapshot, as the next poll finds it. */
  function Found(polls: seq<Poll>, blind: bool): Option<seq<Drive>> {
    if polls == [] || blind then None else Some(polls[|polls| - 1].drives)
  }

  /** The table after a run of polls from an empty database. */
  function Polled(polls: seq<Poll>, c: Thresholds): Levels {
    if polls == [] then map[] else
      var front, last := polls[..|polls| - 1], polls[|polls| - 1];
      Next(Polled(front, c), Found(front, last.blind), last.drives, c)
  }

  ghost predicate Inventories(polls: seq<Poll>) {
    forall i :: 0 <= i < |polls| ==> Inventory(polls[i].drives)
  }

  /** The tracker, driven by polls with retention in between, holds the table of that run. */
  method Track(polls: seq<Poll>, c: Thresholds) returns (tracker: Tracker)
    requires c.Valid() && Inventories(polls)
    ensures tracker.stored == Polled(polls, c) && tracker.previous == Found(polls, false)
  {
    tracker := new Tracker(c);
    for i := 0 to |polls|
      invariant fresh(tracker) && tracker.c == c
      invariant tracker.stored == Polled(polls[..i], c) && tracker.previous == Found(polls[..i], false)
    {
      assert polls[..i + 1][..i] == polls[..i];
      if polls[i].blind {
        tracker.PruneSnapshots();
      }
      var _ := tracker.RunOnce(polls[i].drives);
    }
    assert polls[..|polls|] == polls;
  }

  /** The readings of one disk from a poll on. */
  function Readings(polls: seq<Poll>, start: nat, disk: Disk): seq<Option<int>>
    requires start <= |polls|
  {
    seq(|polls| - start, i requires 0 <= i < |polls| - start => ReadingOf(polls[start + i].drives, disk))
  }

  function StoredLevel(stored: Levels, disk: Disk): Level {
    if disk in stored then stored[disk] else Normal
  }

  /** The disk occupies its slot without interruption from poll `start` on, and was not there before. */
  ghost predicate Occupies(polls: seq<Poll>, start: nat, disk: Disk) {
    && start < |polls| && Inventories(polls)
    && (forall i :: start <= i < |polls| ==> disk in Disks(polls[i].drives))
    && (start > 0 ==> disk !in Disks(polls[start - 1].drives))
  }

  /** The level a disk is inserted with: a blind poll cannot tell an insertion and keeps what is stored. */
  function Origin(polls: seq<Poll>, start: nat, disk: Disk, c: Thresholds): Level
    requires start < |polls|
  {
    if polls[start].blind then StoredLevel(Polled(polls[..start], c), disk) else Normal
  }

  /** The table holds the level of a disk after these readings; without any reading it may hold none. */
  ghost predicate Tracks(stored: Levels, from: Level, readings: seq<Option<int>>, disk: Disk, c: Thresholds) {
    && StoredLevel(stored, disk) == LevelAfter(from, readings, c)
    && (disk !in stored ==> forall r :: r in readings ==> r == None)
  }

  /** What a poll finds while a disk stays in its slot: a snapshot with its latest reading, or none at all. */
  ghost predicate StillThere(previous: Option<seq<Drive>>, readings: seq<Option<int>>, disk: Disk) {
    previous.Some? ==>
      Inventory(previous.value) && disk in Disks(previous.value) && ReadingOf(previous.value, disk) in readings
  }

  lemma LevelAfterOneMore(from: Level, readings: seq<Option<int>>, reading: Option<int>, c: Thresholds)
    ensures LevelAfter(from, readings + [reading], c) ==
            var before := LevelAfter(from, readings, c);
            if reading.None? then before else Settled(before, reading.value, c)
  {
  }

  /** A poll that finds the disk where it was, or finds no snapshot to compare with. */
  lemma Continues(stored: Levels, previous: Option<seq<Drive>>, current: seq<Drive>, readings: seq<Option<int>>,
                  disk: Disk, c: Thresholds)
    requires Inventory(current) && disk in Disks(current) && StillThere(previous, readings, disk)
    requires disk !in stored ==> forall r :: r in readings ==> r == None
    ensures disk.place !in Cleared(previous, current)
    ensures Initial(stored, previous, current, disk, c) == StoredLevel(stored, disk)
    ensures ReadingOf(current, disk).None? ==> (disk in Next(stored, previous, current, c) <==> disk in stored)
    ensures StoredLevel(Next(stored, previous, current, c), disk) ==
            if ReadingOf(current, disk).None? then StoredLevel(stored, disk)
            else Settled(StoredLevel(stored, disk), ReadingOf(current, disk).value, c)
  {
  }

  lemma Stays(stored: Levels, previous: Option<seq<Drive>>, current: seq<Drive>, from: Level,
              readings: seq<Option<int>>, disk: Disk, c: Thresholds)
    requires Inventory(current) && disk in Disks(current) && StillThere(previous, readings, disk)
    requires Tracks(stored, from, readings, disk, c)
    ensures Tracks(Next(stored, previous, current, c), from, readings + [ReadingOf(current, disk)], disk, c)
  {
    Continues(stored, previous, current, readings, disk, c);
    LevelAfterOneMore(from, readings, ReadingOf(current, disk), c);
  }

  lemma ReadingsGrow(polls: seq<Poll>, start: nat, disk: Disk)
    requires start < |polls|
    ensures Readings(polls, start, disk) ==
            Readings(polls[..|polls| - 1], start, disk) + [ReadingOf(polls[|polls| - 1].drives, disk)]
  {
  }

  lemma FindsItself(polls: seq<Poll>, start: nat, disk: Disk)
    requires Occupies(polls, start, disk) && start < |polls| - 1
    ensures var front, last := polls[..|polls| - 1], polls[|polls| - 1];
      && Inventory(last.drives) && disk in Disks(last.drives)
      && StillThere(Found(front, last.blind), Readings(front, start, disk), disk)
  {
    var front := polls[..|polls| - 1];
    var readings := Readings(front, start, disk);
    assert readings[|readings| - 1] == ReadingOf(front[|front| - 1].drives, disk);
  }

  lemma OneMorePoll(polls: seq<Poll>, start: nat, from: Level, disk: Disk, c: Thresholds)
    requires Occupies(polls, start, disk) && start < |polls| - 1
    requires Tracks(Polled(polls[..|polls| - 1], c), from, Readings(polls[..|polls| - 1], start, disk), disk, c)
    ensures Tracks(Polled(polls, c), from, Readings(polls, start, disk), disk, c)
  {
    var front, last := polls[..|polls| - 1], polls[|polls| - 1];
    ReadingsGrow(polls, start, disk);
    FindsItself(polls, start, disk);
    Stays(Polled(front, c), Found(front, last.blind), last.drives, from, Readings(front, start, disk), disk, c);
  }

  lemma InsertedAtItsOrigin(polls: seq<Poll>, start: nat, disk: Disk, c: Thresholds)
    requires Occupies(polls, start, disk)
    ensures Initial(Polled(polls[..start], c), Found(polls[..start], polls[start].blind), polls[start].drives, disk, c)
            == Origin(polls, start, disk, c)
  {
  }

  lemma OnlyReading(polls: seq<Poll>, start: nat, disk: Disk)
    requires start == |polls| - 1
    ensures var readings := Readings(polls, start, disk);
      readings == [] + [ReadingOf(polls[start].drives, disk)] && readings[..|readings| - 1] == []
  {
  }

  lemma FirstPoll(polls: seq<Poll>, start: nat, disk: Disk, c: Thresholds)
    requires Occupies(polls, start, disk) && start == |polls| - 1
    ensures Tracks(Polled(polls, c), Origin(polls, start, disk, c), Readings(polls, start, disk), disk, c)
  {
    var reading := ReadingOf(polls[start].drives, disk);
    InsertedAtItsOrigin(polls, start, disk, c);
    LevelAfterOneMore(Origin(polls, start, disk, c), [], reading, c);
    OnlyReading(polls, start, disk);
  }

  /**
   * Every run, with or without pruning: the stored level of a disk is the machine run over its own
   * readings since it was inserted.
   */
  lemma {:induction false} TableTracksTheDisk(polls: seq<Poll>, start: nat, disk: Disk, c: Thresholds)
    requires c.Valid() && Occupies(polls, start, disk)
    ensures Tracks(Polled(polls, c), Origin(polls, start, disk, c), Readings(polls, start, disk), disk, c)
    decreases |polls|
  {
    var front := polls[..|polls| - 1];
    if start == |polls| - 1 {
      FirstPoll(polls, start, disk, c);
    } else {
      TableTracksTheDisk(front, start, disk, c);
      assert front[..start] == polls[..start];
      OneMorePoll(polls, start, Origin(polls, start, disk, c), disk, c);
    }
  }

  // ------------------------------------------------------------- where a disk starts from

  /** The poll at which the disk was gone found nothing to compare with, and it has been gone since. */
  ghost predicate LeftUnnoticed(polls: seq<Poll>, j: nat, disk: Disk) {
    && 0 < j < |polls| && polls[j].blind && disk in Disks(polls[j - 1].drives)
    && (forall i :: j <= i < |polls| ==> disk !in Disks(polls[i].drives))
  }

  lemma NoticedDeparture(stored: Levels, before: seq<Drive>, current: seq<Drive>, disk: Disk, c: Thresholds)
    requires Inventory(before) && disk in Disks(before) && disk !in Disks(current)
    ensures disk !in Next(stored, Some(before), current, c)
  {
    var b :| b in before && b.disk == disk;
    if disk.place in Places(current) {
      var d :| d in current && d.disk.place == disk.place;
      assert d.disk !in Disks(before);
    }
  }

  /** The level of a disk that is absent after a poll was stored before, and the poll did not miss the disk. */
  lemma KeptWhileAbsent(polls: seq<Poll>, disk: Disk, c: Thresholds)
    requires polls != [] && Inventories(polls) && disk in Polled(polls, c) && disk !in Disks(polls[|polls| - 1].drives)
    ensures disk in Polled(polls[..|polls| - 1], c) && |polls| > 1
    ensures disk in Disks(polls[|polls| - 2].drives) ==> polls[|polls| - 1].blind
  {
    var front, last := polls[..|polls| - 1], polls[|polls| - 1];
    if front != [] && !last.blind && disk in Disks(front[|front| - 1].drives) {
      NoticedDeparture(Polled(front, c), front[|front| - 1].drives, last.drives, disk, c);
    }
  }

  lemma StillGone(polls: seq<Poll>, j: nat, disk: Disk)
    requires polls != [] && LeftUnnoticed(polls[..|polls| - 1], j, disk) && disk !in Disks(polls[|polls| - 1].drives)
    ensures LeftUnnoticed(polls, j, disk)
  {
  }

  lemma JustGone(polls: seq<Poll>, disk: Disk)
    requires |polls| > 1 && polls[|polls| - 1].blind
    requires disk in Disks(polls[|polls| - 2].drives) && disk !in Disks(polls[|polls| - 1].drives)
    ensures LeftUnnoticed(polls, |polls| - 1, disk)
  {
  }

  lemma {:induction false} StoredMeansUnnoticed(polls: seq<Poll>, disk: Disk, c: Thresholds) returns (j: nat)
    requires polls != [] && Inventories(polls) && disk in Polled(polls, c) && disk !in Disks(polls[|polls| - 1].drives)
    ensures LeftUnnoticed(polls, j, disk)
  {
    KeptWhileAbsent(polls, disk, c);
    if disk in Disks(polls[|polls| - 2].drives) {
      j := |polls| - 1;
      JustGone(polls, disk);
    } else {
      j := StoredMeansUnnoticed(polls[..|polls| - 1], disk, c);
      StillGone(polls, j, disk);
    }
  }

  lemma PollStep(polls: seq<Poll>, p: Poll, c: Thresholds)
    ensures Polled(polls + [p], c) == Next(Polled(polls, c), Found(polls, p.blind), p.drives, c)
  {
  }

  /** A poll that clears the slot of a disk: it noticed that something else came or went there. */
  predicate ClearsSlot(polls: seq<Poll>, i: nat, disk: Disk)
    requires i < |polls|
  {
    disk.place in Cleared(Found(polls[..i], polls[i].blind), polls[i].drives)
  }

  lemma PollWithout(stored: Levels, previous: Option<seq<Drive>>, current: seq<Drive>, disk: Disk, c: Thresholds)
    requires disk !in Disks(current)
    ensures StoredLevel(Next(stored, previous, current, c), disk) ==
            if disk.place in Cleared(previous, current) then Normal else StoredLevel(stored, disk)
  {
  }

  lemma PollWithoutAt(polls: seq<Poll>, i: nat, disk: Disk, c: Thresholds)
    requires i < |polls| && disk !in Disks(polls[i].drives)
    ensures StoredLevel(Polled(polls[..i + 1], c), disk) ==
            if ClearsSlot(polls, i, disk) then Normal else StoredLevel(Polled(polls[..i], c), disk)
  {
    assert polls[..i + 1] == polls[..i] + [polls[i]];
    PollStep(polls[..i], polls[i], c);
    PollWithout(Polled(polls[..i], c), Found(polls[..i], polls[i].blind), polls[i].drives, disk, c);
  }

  /** No poll from `j` to `k` noticed anything in the slot of a disk. */
  ghost predicate SlotUnnoticed(polls: seq<Poll>, j: nat, k: nat, disk: Disk)
    requires k <= |polls|
  {
    forall i :: j <= i < k ==> !ClearsSlot(polls, i, disk)
  }

  ghost predicate Absent(polls: seq<Poll>, j: nat, k: nat, disk: Disk)
    requires k <= |polls|
  {
    forall i :: j <= i < k ==> disk !in Disks(polls[i].drives)
  }

  /** While a disk is absent and nothing is noticed in its slot, its level is carried along. */
  lemma {:induction false} LevelIsCarried(polls: seq<Poll>, j: nat, k: nat, disk: Disk, c: Thresholds)
    requires j <= k <= |polls| && Absent(polls, j, k, disk) && SlotUnnoticed(polls, j, k, disk)
    ensures StoredLevel(Polled(polls[..k], c), disk) == StoredLevel(Polled(polls[..j], c), disk)
    decreases k
  {
    hide Polled, StoredLevel, ClearsSlot;
    if k == j {
    } else {
      LevelIsCarried(polls, j, k - 1, disk, c);
      PollWithoutAt(polls, k - 1, disk, c);
    }
  }

  /** Once a poll clears the slot, an absent disk is back to the normal level. */
  lemma {:induction false} LevelIsReset(polls: seq<Poll>, i: nat, k: nat, disk: Disk, c: Thresholds)
    requires i < k <= |polls| && Absent(polls, i, k, disk) && ClearsSlot(polls, i, disk)
    ensures StoredLevel(Polled(polls[..k], c), disk).Normal?
    decreases k
  {
    hide Polled, StoredLevel, ClearsSlot;
    PollWithoutAt(polls, k - 1, disk, c);
    if k == i + 1 {
    } else {
      LevelIsReset(polls, i, k - 1, disk, c);
    }
  }

  /** A disk that left at poll `j` and is back at poll `start`, while no poll before noticed anything in its slot. */
  ghost predicate NeverNoticed(polls: seq<Poll>, j: nat, start: nat, disk: Disk)
    requires start <= |polls|
  {
    LeftUnnoticed(polls[..start], j, disk) && SlotUnnoticed(polls, j, start, disk)
  }

  lemma LeftMeansAbsent(polls: seq<Poll>, j: nat, start: nat, disk: Disk)
    requires start <= |polls| && LeftUnnoticed(polls[..start], j, disk)
    ensures Absent(polls, j, start, disk)
  {
    forall i | j <= i < start ensures disk !in Disks(polls[i].drives) {
      assert polls[..start][i] == polls[i];
    }
  }

  lemma LeftWithItsLevel(polls: seq<Poll>, j: nat, start: nat, disk: Disk, c: Thresholds)
    requires start <= |polls| && LeftUnnoticed(polls[..start], j, disk)
    ensures StoredLevel(Polled(polls[..start], c), disk) ==
            if NeverNoticed(polls, j, start, disk) then StoredLevel(Polled(polls[..j], c), disk) else Normal
  {
    LeftMeansAbsent(polls, j, start, disk);
    if SlotUnnoticed(polls, j, start, disk) {
      LevelIsCarried(polls, j, start, disk, c);
    } else {
      var i: nat :| j <= i < start && ClearsSlot(polls, i, disk);
      LevelIsReset(polls, i, start, disk, c);
    }
  }

  lemma OldLevelMeansNeverNoticed(polls: seq<Poll>, start: nat, disk: Disk, c: Thresholds) returns (j: nat)
    requires Occupies(polls, start, disk) && !Origin(polls, start, disk, c).Normal?
    ensures NeverNoticed(polls, j, start, disk) && !StoredLevel(Polled(polls[..j], c), disk).Normal?
  {
    var before := polls[..start];
    assert before != [] && before[start - 1] == polls[start - 1];
    j := StoredMeansUnnoticed(before, disk, c);
    LeftWithItsLevel(polls, j, start, disk, c);
  }

  /**
   * The exact condition, for every run and every disk that comes into a slot: it starts from another
   * level than the normal one if and only if its return and an earlier removal were both missed, nothing
   * in its slot was noticed in between, and it left with another level than the normal one.
   */
  lemma InsertedDisksStartNormalUnless(polls: seq<Poll>, start: nat, disk: Disk, c: Thresholds)
    requires Occupies(polls, start, disk)
    ensures !Origin(polls, start, disk, c).Normal? <==>
            && polls[start].blind
            && exists j: nat :: NeverNoticed(polls, j, start, disk) && !StoredLevel(Polled(polls[..j], c), disk).Normal?
  {
    if !Origin(polls, start, disk, c).Normal? {
      var j := OldLevelMeansNeverNoticed(polls, start, disk, c);
    } else if j: nat :| NeverNoticed(polls, j, start, disk) && !StoredLevel(Polled(polls[..j], c), disk).Normal? {
      LeftWithItsLevel(polls, j, start, disk, c);
    }
  }

  lemma HotThenGone(disk: Disk, t: int, c: Thresholds)
    requires c.Valid() && t >= c.critical
    ensures Polled([] + [Poll([Drive(disk, Some(t))], false)] + [Poll([], true)], c) == map[disk := Critical]
  {
    var hot, gone := Poll([Drive(disk, Some(t))], false), Poll([], true);
    assert hot.drives[0].disk in Disks(hot.drives);
    PollStep([], hot, c);
    PollStep([] + [hot], gone, c);
  }

  /** It does happen: a critical disk is pulled and put back, and retention empties the snapshots before both polls. */
  lemma UnnoticedReturnKeepsTheLevel(disk: Disk, t: int, again: Option<int>, c: Thresholds)
    requires c.Valid() && t >= c.critical
    ensures var polls := [] + [Poll([Drive(disk, Some(t))], false)] + [Poll([], true)]
                         + [Poll([Drive(disk, again)], true)];
      Occupies(polls, 2, disk) && Origin(polls, 2, disk, c) == Critical
  {
    var before := [] + [Poll([Drive(disk, Some(t))], false)] + [Poll([], true)];
    var back := Poll([Drive(disk, again)], true);
    HotThenGone(disk, t, c);
    assert back.drives[0].disk in Disks(back.drives);
    assert (before + [back])[..2] == before;
  }

  // ------------------------------------------------------------- what a run of polls announces

  /** The events of one disk in the last of these polls. */
  function Announced(polls: seq<Poll>, disk: Disk, c: Thresholds): seq<TempEvent>
    requires polls != []
  {
    var front, last := polls[..|polls| - 1], polls[|polls| - 1];
    Emitted(Polled(front, c), Found(front, last.blind), last.drives, disk, c)
  }

  lemma StaysSilentOrMoves(stored: Levels, previous: Option<seq<Drive>>, current: seq<Drive>, from: Level,
                           readings: seq<Option<int>>, disk: Disk, c: Thresholds)
    requires Inventory(current) && disk in Disks(current) && StillThere(previous, readings, disk)
    requires Tracks(stored, from, readings, disk, c)
    ensures Emitted(stored, previous, current, disk, c) ==
            Path(LevelAfter(from, readings, c), LevelAfter(from, readings + [ReadingOf(current, disk)], c))
  {
    Continues(stored, previous, current, readings, disk, c);
    LevelAfterOneMore(from, readings, ReadingOf(current, disk), c);
  }

  /** What a poll announces about a disk is what the machine emits over the disk's own readings. */
  lemma AnnouncedIsTheMachine(polls: seq<Poll>, start: nat, disk: Disk, c: Thresholds)
    requires c.Valid() && Occupies(polls, start, disk)
    ensures var from, readings := Origin(polls, start, disk, c), Readings(polls, start, disk);
      Announced(polls, disk, c) == Path(LevelAfter(from, readings[..|readings| - 1], c), LevelAfter(from, readings, c))
  {
    if start < |polls| - 1 {
      AnnouncedLater(polls, start, disk, c);
    } else {
      AnnouncedFirst(polls, start, disk, c);
    }
  }

  lemma AnnouncedLater(polls: seq<Poll>, start: nat, disk: Disk, c: Thresholds)
    requires c.Valid() && Occupies(polls, start, disk) && start < |polls| - 1
    ensures var from, readings := Origin(polls, start, disk, c), Readings(polls, start, disk);
      Announced(polls, disk, c) == Path(LevelAfter(from, readings[..|readings| - 1], c), LevelAfter(from, readings, c))
  {
    var front, last := polls[..|polls| - 1], polls[|polls| - 1];
    var readings := Readings(front, start, disk);
    ReadingsGrow(polls, start, disk);
    FindsItself(polls, start, disk);
    TableTracksTheDisk(front, start, disk, c);
    assert front[..start] == polls[..start];
    StaysSilentOrMoves(Polled(front, c), Found(front, last.blind), last.drives, Origin(polls, start, disk, c),
                       readings, disk, c);
    assert (readings + [ReadingOf(last.drives, disk)])[..|readings|] == readings;
  }

  lemma AnnouncedFirst(polls: seq<Poll>, start: nat, disk: Disk, c: Thresholds)
    requires c.Valid() && Occupies(polls, start, disk) && start == |polls| - 1
    ensures var from, readings := Origin(polls, start, disk, c), Readings(polls, start, disk);
      Announced(polls, disk, c) == Path(LevelAfter(from, readings[..|readings| - 1], c), LevelAfter(from, readings, c))
  {
    var from, reading := Origin(polls, start, disk, c), ReadingOf(polls[start].drives, disk);
    InsertedAtItsOrigin(polls, start, disk, c);
    assert Announced(polls, disk, c) == if reading.None? then [] else Path(from, Settled(from, reading.value, c));
    LevelAfterOneMore(from, [], reading, c);
    OnlyReading(polls, start, disk);
  }

  lemma OccupiedUntil(polls: seq<Poll>, start: nat, i: nat, disk: Disk)
    requires Occupies(polls, start, disk) && start <= i < |polls|
    ensures Occupies(polls[..i + 1], start, disk)
  {
  }

  lemma ReadingsUntil(polls: seq<Poll>, start: nat, i: nat, disk: Disk)
    requires start <= i < |polls|
    ensures Readings(polls[..i + 1], start, disk) == Readings(polls, start, disk)[..i - start + 1]
  {
  }

  lemma AnnouncedAt(polls: seq<Poll>, start: nat, i: nat, disk: Disk, c: Thresholds)
    requires c.Valid() && Occupies(polls, start, disk) && start <= i < |polls|
    ensures Announced(polls[..i + 1], disk, c) ==
            EventsAt(Origin(polls, start, disk, c), Readings(polls, start, disk), i - start, c)
  {
    OccupiedUntil(polls, start, i, disk);
    AnnouncedIsTheMachine(polls[..i + 1], start, disk, c);
    ReadingsUntil(polls, start, i, disk);
    assert polls[..i + 1][..start] == polls[..start];
    ghost var readings := Readings(polls, start, disk);
    assert readings[..i - start + 1][..i - start] == readings[..i - start];
  }

  lemma BelowSomewhere(polls: seq<Poll>, start: nat, i: nat, j: nat, disk: Disk, c: Thresholds)
    requires start <= i < j < |polls|
    requires exists k :: i - start < k < j - start && Below(Readings(polls, start, disk)[k], c)
    ensures exists k :: i < k < j && Below(ReadingOf(polls[k].drives, disk), c)
  {
  }

  lemma BelowBetween(polls: seq<Poll>, start: nat, i: nat, j: nat, from: Level, disk: Disk, c: Thresholds)
    requires c.Valid() && start <= i < j < |polls|
    requires Rises(from, Readings(polls, start, disk), i - start, c)
    requires Rises(from, Readings(polls, start, disk), j - start, c)
    ensures exists k :: i < k < j && Below(ReadingOf(polls[k].drives, disk), c)
  {
    RisesAreSeparated(from, Readings(polls, start, disk), i - start, j - start, c);
    BelowSomewhere(polls, start, i, j, disk, c);
  }

  lemma WarningAt(polls: seq<Poll>, start: nat, i: nat, disk: Disk, c: Thresholds)
    requires c.Valid() && Occupies(polls, start, disk) && start <= i < |polls|
    requires RaisesWarning(Announced(polls[..i + 1], disk, c))
    ensures Rises(Origin(polls, start, disk, c), Readings(polls, start, disk), i - start, c)
  {
    var from, readings := Origin(polls, start, disk, c), Readings(polls, start, disk);
    AnnouncedAt(polls, start, i, disk, c);
    WarningStartsFromNormal(LevelAfter(from, readings[..i - start], c), LevelAfter(from, readings[..i - start + 1], c));
  }

  /** Two warnings of a disk that stays in its slot are separated by a reading below the clear boundary. */
  lemma WarningsOfADiskAreSeparated(polls: seq<Poll>, start: nat, i: nat, j: nat, disk: Disk, c: Thresholds)
    requires c.Valid() && Occupies(polls, start, disk) && start <= i < j < |polls|
    requires RaisesWarning(Announced(polls[..i + 1], disk, c)) && RaisesWarning(Announced(polls[..j + 1], disk, c))
    ensures exists k :: i < k < j && Below(ReadingOf(polls[k].drives, disk), c)
  {
    WarningAt(polls, start, i, disk, c);
    WarningAt(polls, start, j, disk, c);
    BelowBetween(polls, start, i, j, Origin(polls, start, disk, c), disk, c);
  }
}
