/**
 * The serialized match as the report page receives it: the event list and
 * the two teams with their ordered player lists.
 */
module Events {
  import opened Slots
  import opened Clock

  /**
   * One serialized event. Only the fields the shot analysis reads are kept;
   * `attackingTeam` and `defendingTeam` are 0 for home and 1 for away.
   */
  datatype Event = Event(
    eventType: string,
    attackingTeam: int,
    defendingTeam: int,
    attacker: Numeric,
    defender: Numeric,
    shotType: int,
    shotResult: int,
    gameclock: ClockValue)

  /** A team: its name and its player names in roster order. */
  datatype Team = Team(name: string, players: seq<string>)

  predicate IsShot(e: Event) {
    e.eventType == "shot"
  }

  /** The shot events, in their original order. */
  function ShotEvents(events: seq<Event>): (shots: seq<Event>)
    ensures |shots| <= |events|
    ensures forall k :: 0 <= k < |shots| ==> IsShot(shots[k])
    ensures forall k :: 0 <= k < |events| && IsShot(events[k]) ==> events[k] in shots
    ensures forall e :: e in shots ==> e in events
    ensures forall e :: multiset(shots)[e] == if IsShot(e) then multiset(events)[e] else 0
    decreases |events|
  {
    if |events| == 0 then []
    else
      var rest := ShotEvents(events[1..]);
      assert forall k :: 1 <= k < |events| ==> events[k] == events[1..][k - 1];
      assert events == [events[0]] + events[1..];
      if IsShot(events[0]) then [events[0]] + rest else rest
  }

  /** getTeamBySide: side 0 is the home team, every other side the away team. */
  function TeamBySide(home: Team, away: Team, side: int): (t: Team)
    ensures side == 0 ==> t == home
    ensures side == 1 ==> t == away
    ensures t == home || t == away
  {
    if side == 0 then home else away
  }
}
