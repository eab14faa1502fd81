// The instant a local day begins, across a change of the zone's offset: `localDayBounds` and `zonedMidnightMs` in
// src/daily-planner.js. Times are in milliseconds; a wall-clock time is written as the instant at which a clock at
// offset zero would show it.

module LocalDay {
  import opened Calendar

  // How far ahead of universal time a zone is, at each instant.
  type Zone = int -> int

  function Local(zone: Zone, t: int): (wall: int) {
    t + zone(t)
  }

  // Guess with the offset in effect at the wall time taken as universal, and correct once with the offset at the guess.
  function ZonedMidnight(zone: Zone, wall: int): (t: int) {
    wall - zone(wall - zone(wall))
  }

  // Within reach of a wall time the zone changes its offset at most once: from before to after, at instant change.
  datatype Change = Change(before: int, after: int, at: int)

  const REACH: int := 2 * DAY_MS

  ghost predicate ChangesOnce(zone: Zone, wall: int, c: Change) {
    && -DAY_MS < c.before < DAY_MS && -DAY_MS < c.after < DAY_MS
    && forall t :: wall - REACH <= t <= wall + REACH ==> zone(t) == if t < c.at then c.before else c.after
  }

  // Some instant within reach reads the wall time.
  ghost predicate Exists(zone: Zone, wall: int) {
    exists t :: wall - REACH <= t <= wall + REACH && Local(zone, t) == wall
  }

  lemma {:induction false} ExistsIff(zone: Zone, wall: int, c: Change)
    requires ChangesOnce(zone, wall, c)
    ensures Exists(zone, wall) <==> wall - c.before < c.at || wall - c.after >= c.at
  {
    if wall - c.before < c.at {
      assert Local(zone, wall - c.before) == wall;
    } else if wall - c.after >= c.at {
      assert Local(zone, wall - c.after) == wall;
    }
  }

  // One correction is enough: the result reads midnight exactly when some instant does.
  lemma {:induction false} MidnightIff(zone: Zone, wall: int, c: Change)
    requires ChangesOnce(zone, wall, c)
    ensures Local(zone, ZonedMidnight(zone, wall)) == wall <==> Exists(zone, wall)
  {
    ExistsIff(zone, wall, c);
    var guess := wall - zone(wall);
    assert zone(wall) == if wall < c.at then c.before else c.after;
    assert zone(guess) == if guess < c.at then c.before else c.after;
    var t := ZonedMidnight(zone, wall);
    assert zone(t) == if t < c.at then c.before else c.after;
    if Local(zone, t) == wall {
      assert wall - REACH <= t <= wall + REACH;
    }
  }

  // A midnight that is skipped: the result is late by the length of the gap when the change comes no later than the
  // wall time taken as universal, and early by it otherwise.
  lemma {:induction false} SkippedMidnight(zone: Zone, wall: int, c: Change)
    requires ChangesOnce(zone, wall, c) && !Exists(zone, wall)
    ensures c.after > c.before
    ensures Local(zone, ZonedMidnight(zone, wall))
         == if wall >= c.at then wall + (c.after - c.before) else wall - (c.after - c.before)
  {
    ExistsIff(zone, wall, c);
    var guess := wall - zone(wall);
    var t := ZonedMidnight(zone, wall);
    assert zone(wall) == if wall < c.at then c.before else c.after;
    assert zone(guess) == if guess < c.at then c.before else c.after;
    assert zone(t) == if t < c.at then c.before else c.after;
  }

  // When the clock jumps at midnight itself, "one o'clock" is right exactly for zones that were not behind
  // universal time.
  lemma {:induction false} SkippedMidnightIsLateIff(zone: Zone, wall: int, c: Change)
    requires ChangesOnce(zone, wall, c) && c.after > c.before && c.at == wall - c.before
    ensures !Exists(zone, wall)
    ensures Local(zone, ZonedMidnight(zone, wall)) == wall + (c.after - c.before) <==> c.before >= 0
  {
    ExistsIff(zone, wall, c);
    SkippedMidnight(zone, wall, c);
  }

  const HOUR_MS: int := 3_600_000

  // Such a zone: four hours behind and then three, at midnight. Its day begins at eleven in the evening before.
  lemma {:induction false} SkippedMidnightBehind(wall: int) returns (zone: Zone)
    ensures !Exists(zone, wall) && Local(zone, ZonedMidnight(zone, wall)) == wall - HOUR_MS
  {
    var c := Change(-4 * HOUR_MS, -3 * HOUR_MS, wall + 4 * HOUR_MS);
    zone := t => if t < c.at then c.before else c.after;
    assert ChangesOnce(zone, wall, c);
    SkippedMidnightIsLateIff(zone, wall, c);
    SkippedMidnight(zone, wall, c);
  }

  // A midnight that comes twice: the first when the change comes after the wall time taken as universal, else the
  // second.
  lemma {:induction false} RepeatedMidnight(zone: Zone, wall: int, c: Change)
    requires ChangesOnce(zone, wall, c) && wall - c.before < c.at <= wall - c.after
    ensures ZonedMidnight(zone, wall) == if wall < c.at then wall - c.before else wall - c.after
  {
    assert zone(wall) == if wall < c.at then c.before else c.after;
    var guess := wall - zone(wall);
    assert zone(guess) == if guess < c.at then c.before else c.after;
  }

  // With a midnight that comes once, an instant is in the day from its start on exactly when its local time is.
  lemma {:induction false} StartDivides(zone: Zone, wall: int, c: Change, t: int)
    requires ChangesOnce(zone, wall, c) && wall - REACH <= t <= wall + REACH
    requires Exists(zone, wall) && !(wall - c.before < c.at <= wall - c.after)
    ensures t >= ZonedMidnight(zone, wall) <==> Local(zone, t) >= wall
  {
    ExistsIff(zone, wall, c);
    var guess := wall - zone(wall);
    assert zone(wall) == if wall < c.at then c.before else c.after;
    assert zone(guess) == if guess < c.at then c.before else c.after;
    assert zone(t) == if t < c.at then c.before else c.after;
  }

  // ---- calendar days ------------------------------------------------------------------------

  datatype Bounds = Bounds(start: int, end: int)

  // The closing bound is taken through the calendar, not by adding a day.
  function LocalDayBounds(zone: Zone, d: Date): (b: Bounds)
    requires Valid(d)
  {
    var next := NextDate(d);
    Bounds(ZonedMidnight(zone, Utc(d.year, d.month, d.day)), ZonedMidnight(zone, Utc(next.year, next.month, next.day)))
  }

  // The days follow each other without gap or overlap, and each lasts a day less the change of the offset in it.
  lemma {:induction false} DaysFollow(zone: Zone, d: Date)
    requires Valid(d)
    ensures LocalDayBounds(zone, NextDate(d)).start == LocalDayBounds(zone, d).end
    ensures var wall, b := Utc(d.year, d.month, d.day), LocalDayBounds(zone, d);
            Local(zone, b.start) == wall && Local(zone, b.end) == wall + DAY_MS ==>
              b.end - b.start == DAY_MS - (zone(b.end) - zone(b.start))
  {
    NextDateIsNextDay(d);
  }

  // With one change of less than a day within reach of both ends, and neither midnight skipped or repeated, the
  // bounds hold exactly the instants whose local date is this day.
  lemma {:induction false} BoundsHoldTheDay(zone: Zone, d: Date, c: Change, t: int)
    requires Valid(d)
    requires var wall := Utc(d.year, d.month, d.day);
             && ChangesOnce(zone, wall, c) && ChangesOnce(zone, wall + DAY_MS, c)
             && Exists(zone, wall) && Exists(zone, wall + DAY_MS)
             && !(wall - c.before < c.at <= wall - c.after)
             && !(wall + DAY_MS - c.before < c.at <= wall + DAY_MS - c.after)
             && wall - DAY_MS <= t <= wall + REACH
    ensures var wall, b := Utc(d.year, d.month, d.day), LocalDayBounds(zone, d);
            b.start <= t < b.end <==> wall <= Local(zone, t) < wall + DAY_MS
  {
    var wall := Utc(d.year, d.month, d.day);
    NextDateIsNextDay(d);
    StartDivides(zone, wall, c, t);
    StartDivides(zone, wall + DAY_MS, c, t);
  }
}
