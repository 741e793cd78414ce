/**
 * Drive temperature alerts end to end: whether a queued alert is delivered is decided by the level that the
 * machine reaches over the disk's own readings, whatever was polled and pruned before.
 */
module TemperatureRelevance {
  import opened Prelude
  import opened Incidents
  import opened Relevance
  import H = Hysteresis
  import T = TemperatureStates

  /** The subject of a slot's events. */
  function DriveSubject(place: T.Slot): string {
    "PD e" + Decimal(place.enclosure) + ":s" + Decimal(place.slot)
  }

  predicate AllDigits(s: string) {
    forall i :: 0 <= i < |s| ==> '0' <= s[i] <= '9'
  }

  lemma {:induction false} DecimalIsDigits(n: nat)
    ensures Digits(n) != "" && AllDigits(Digits(n))
  {
    if n < 10 {
    } else {
      DecimalIsDigits(n / 10);
    }
  }

  lemma {:induction false} DigitsAreSkipped(digits: string, rest: string)
    requires AllDigits(digits) && (rest == "" || !('0' <= rest[0] <= '9'))
    ensures SkipDigits(digits + rest) == rest
  {
    if digits == "" {
      assert digits + rest == rest;
    } else {
      DigitsAreSkipped(digits[1..], rest);
      assert (digits + rest)[1..] == digits[1..] + rest;
    }
  }

  lemma SubjectsAreRecognized(place: T.Slot)
    requires place.enclosure >= 0 && place.slot >= 0
    ensures IsDriveSubject(DriveSubject(place))
  {
    var enclosure, slot, subject := Digits(place.enclosure), Digits(place.slot), DriveSubject(place);
    DecimalIsDigits(place.enclosure);
    DecimalIsDigits(place.slot);
    assert subject[..4] == "PD e" && subject[4..] == enclosure + (":s" + slot);
    DigitsAreSkipped(enclosure, ":s" + slot);
    assert slot + "" == slot && (":s" + slot)[2..] == slot;
    DigitsAreSkipped(slot, "");
  }

  /** The saved levels are the table of a run of polls. */
  ghost predicate SavedBy(saved: Saved, polls: seq<T.Poll>, c: Settings) {
    forall disk: T.Disk ::
      var key, table := (DriveSubject(disk.place), disk.serial), T.Polled(polls, c.drive);
      (key in saved.levels <==> disk in table) && (disk in table ==> saved.levels[key] == table[disk])
  }

  /** The level of the machine after all readings of a disk that came into its slot at poll `start`. */
  function MachineLevel(polls: seq<T.Poll>, start: nat, disk: T.Disk, c: Settings): H.Level
    requires start < |polls|
  {
    H.LevelAfter(T.Origin(polls, start, disk, c.drive), T.Readings(polls, start, disk), c.drive)
  }

  /** A drive of a snapshot, as the last poll saw a disk. */
  ghost predicate SeenLast(drive: Drive, polls: seq<T.Poll>, disk: T.Disk) {
    polls != [] && drive.serial == disk.serial && drive.temperature == T.ReadingOf(polls[|polls| - 1].drives, disk)
  }

  lemma TableFitsTheReading(polls: seq<T.Poll>, start: nat, disk: T.Disk, c: Settings)
    requires c.drive.Valid() && T.Occupies(polls, start, disk)
    requires T.ReadingOf(polls[|polls| - 1].drives, disk).Some?
    ensures var table := T.Polled(polls, c.drive);
      && disk in table && table[disk] == MachineLevel(polls, start, disk, c)
      && H.Band(table[disk], T.ReadingOf(polls[|polls| - 1].drives, disk).value, c.drive)
  {
    var front, last := polls[..|polls| - 1], polls[|polls| - 1];
    T.TableTracksTheDisk(polls, start, disk, c.drive);
    T.StoredLevelFits(T.Polled(front, c.drive), T.Found(front, last.blind), last.drives, disk, c.drive);
  }

  /** An alert of a disk stands exactly when its severity is the level of the machine. */
  lemma AlertStandsAtTheMachineLevel(saved: Saved, polls: seq<T.Poll>, start: nat, disk: T.Disk, e: Event,
                                     drive: Drive, c: Settings)
    requires c.drive.Valid() && T.Occupies(polls, start, disk) && SavedBy(saved, polls, c)
    requires SeenLast(drive, polls, disk) && drive.temperature.Some?
    requires e.subject == DriveSubject(disk.place) && !e.severity.Info?
    ensures DriveTemperatureRelevance(saved, e, drive, c) == Current <==>
            LevelIs(MachineLevel(polls, start, disk, c), e.severity)
  {
    TableFitsTheReading(polls, start, disk, c);
    assert (DriveSubject(disk.place), disk.serial) in saved.levels;
    TemperatureAlertStandsAtItsLevel(saved, e, drive, c);
  }

  /** Whether the latest snapshot is fresh and shows the disk that the event is about, with a reading. */
  ghost predicate FreshlySeen(saved: Saved, e: Event, s: Snapshot, serial: string, now: int, c: Settings) {
    && LatestAt(saved.snapshots, now) == Some(s) && s.at >= now - Freshness(c) && !FailedSince(saved.log, s.at, now)
    && DriveSerialAt(saved, e) == Some(serial) && serial != ""
    && e.subject in s.drives && s.drives[e.subject].serial == serial && s.drives[e.subject].temperature.Some?
  }

  lemma DeliveredIffItStands(saved: Saved, id: nat, s: Snapshot, serial: string, now: int, c: Settings)
    requires id < |saved.log| && saved.log[id].category == "temperature" && IsDriveSubject(saved.log[id].subject)
    requires FreshlySeen(saved, saved.log[id], s, serial, now, c)
    ensures DeliveryRelevance(saved, id, now, c) == Current <==>
            && !IncidentSuperseded(saved, id, |saved.log|, now, c)
            && DriveTemperatureRelevance(saved, saved.log[id], s.drives[saved.log[id].subject], c) == Current
  {
    hide IsDriveSubject, IncidentSuperseded, DriveTemperatureRelevance, LatestAt, FailedSince, DriveSerialAt;
  }

  /**
   * Every run of polls with any pruning, every temperature alert of a disk that is still in its slot, whenever
   * the data is fresh and has a reading: the alert is delivered if and only if nothing superseded it and its
   * severity is the level of the machine.
   */
  lemma TemperatureAlertIsDeliveredIff(saved: Saved, id: nat, s: Snapshot, polls: seq<T.Poll>, start: nat,
                                       disk: T.Disk, now: int, c: Settings)
    requires c.drive.Valid() && T.Occupies(polls, start, disk) && SavedBy(saved, polls, c)
    requires id < |saved.log| && saved.log[id].category == "temperature" && !saved.log[id].severity.Info?
    requires saved.log[id].subject == DriveSubject(disk.place) && disk.place.enclosure >= 0 && disk.place.slot >= 0
    requires DriveSerialAt(saved, saved.log[id]) == Some(disk.serial) && disk.serial != ""
    requires FreshlySeen(saved, saved.log[id], s, disk.serial, now, c)
    requires SeenLast(s.drives[DriveSubject(disk.place)], polls, disk)
    ensures DeliveryRelevance(saved, id, now, c) == Current <==>
            && !IncidentSuperseded(saved, id, |saved.log|, now, c)
            && LevelIs(MachineLevel(polls, start, disk, c), saved.log[id].severity)
  {
    hide IsDriveSubject, IncidentSuperseded, DeliveryRelevance, DriveTemperatureRelevance;
    hide DriveSubject, MachineLevel, SavedBy;
    SubjectsAreRecognized(disk.place);
    DeliveredIffItStands(saved, id, s, disk.serial, now, c);
    AlertStandsAtTheMachineLevel(saved, polls, start, disk, saved.log[id], s.drives[DriveSubject(disk.place)], c);
  }
}
