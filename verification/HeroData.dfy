/** What the game server keeps of a player: the parts of DreamHero that the other modules change or save. */
module HeroData {
  datatype Task = Task(id: int, argument: int, useTime: int)

  /** A chapter and the last section of it that was passed. */
  datatype Record = Record(chapter: int, section: int)

  /** A special creature that was killed. */
  datatype Kill = Kill(id: int, kind: int)

  /** A chapter and a section. */
  type Place = (int, int)

  datatype Hero = Hero(tasks: seq<Task>, records: seq<Record>, gold: int, completeCount: int,
                       refreshCount: int, refreshTime: int)

  datatype Player = Player(
    hero: Hero,
    jewel: int,
    lotions: seq<int>,
    kills: map<Place, seq<Kill>>,
    creatures: map<int, int>,
    heroes: seq<bool>,
    gridState: seq<(int, bool)>,
    chapter: int,
    section: int,
    lotteryTime: int)

  function KillsAt(kills: map<Place, seq<Kill>>, place: Place): seq<Kill> {
    if place in kills then kills[place] else []
  }
}
