/**
 * The records held by the game store (app/services/storage.py, app/models)
 * and the per-pet rules that the store's operations apply to one record:
 * the status ladder, the owner actions, support, revive, relocation and one
 * decay step. Everything here is a pure function of one record; the store in
 * storage.dfy applies these rules to its maps in place.
 */
module Pets {
  import opened Common

  const GAME_AREA_WIDTH: real := 800.0
  const GAME_AREA_HEIGHT: real := 600.0
  /** New pets spawn at least this far from every wall. */
  const SPAWN_MARGIN: real := 50.0
  /** The double nearest to 2 * math.pi, the upper end of the spawn heading. */
  const TWO_PI: real := 6.283185307179586
  /** Value every stat is reset to by revive. */
  const REVIVE_BASELINE: int := 20
  /** Seconds between hunger, happiness and energy decay steps at difficulty 1.0. */
  const HUNGER_PERIOD: real := 30.0
  const PLAY_PERIOD: real := 60.0
  const SLEEP_PERIOD: real := 45.0
  const MIN_DIFFICULTY: real := 0.25
  const MAX_DIFFICULTY: real := 4.0
  const EMOJIS: seq<string> :=
    ["\U{1F431}", "\U{1F436}", "\U{1F430}", "\U{1F438}", "\U{1F427}", "\U{1F428}", "\U{1F98A}", "\U{1F43C}"]

  datatype Status = Happy | Sad | Tired | Starving | Dead

  /** A pet's place on the field; a record read back from disk may lack the heading or the speed. */
  datatype Position = Position(x: real, y: real, direction: Option<real>, speed: Option<real>)

  datatype Pet = Pet(
    id: string, name: string, owner: string,
    happiness: int, hunger: int, energy: int, health: int,
    age: int,
    lastFed: real, lastPlayed: real, lastSlept: real, createdAt: real,
    alive: bool, status: Status, position: Position, emoji: string)

  /** What Python's `float(v)` makes of a stored or submitted difficulty. */
  datatype Raw = Number(value: real) | NotANumber

  datatype User = User(
    id: string, username: string, mouseX: real, mouseY: real,
    online: bool, difficulty: Option<Raw>)

  /** An entry of `mouse_positions`. */
  datatype Cursor = Cursor(userId: string, username: string, x: real, y: real, timestamp: real)

  /** The per-pet payload of a `stats_update` broadcast. */
  datatype Summary = Summary(
    id: string, happiness: int, hunger: int, energy: int, health: int,
    age: int, status: Status, alive: bool)

  /** The messages the store hands to the connection manager. */
  datatype Event =
    | PetCreated(pet: Pet)
    | StatsUpdate(summary: Summary)
    | StatsBatch(summaries: seq<Summary>)
    | PositionUpdate(petId: string, x: real, y: real, direction: real)
    | PetRemoved(petId: string)
    | MousePosition(cursor: Cursor)

  /** Every field of the payload is the pet's own: the client sees the record's current stats. */
  function Summarize(p: Pet): (s: Summary)
    ensures s.id == p.id && s.status == p.status && s.alive == p.alive
    ensures s.happiness == p.happiness && s.hunger == p.hunger && s.energy == p.energy
    ensures s.health == p.health && s.age == p.age
  {
    Summary(p.id, p.happiness, p.hunger, p.energy, p.health, p.age, p.status, p.alive)
  }

  ghost predicate StatsInRange(p: Pet) {
    && 0 <= p.happiness <= 100 && 0 <= p.hunger <= 100
    && 0 <= p.energy <= 100 && 0 <= p.health <= 100
  }

  ghost predicate InWorld(pos: Position) {
    0.0 <= pos.x <= GAME_AREA_WIDTH && 0.0 <= pos.y <= GAME_AREA_HEIGHT
  }

  // ---------------------------------------------------------------------------
  // Status

  /** The status ladder, evaluated top to bottom. */
  function Ladder(health: int, hunger: int, energy: int, happiness: int): (s: Status)
    ensures s == Dead <==> health <= 0
    ensures s == Starving <==> health > 0 && hunger > 80
    ensures s == Tired <==> health > 0 && hunger <= 80 && energy < 20
    ensures s == Sad <==> health > 0 && hunger <= 80 && energy >= 20 && happiness < 30
    ensures s == Happy <==> health > 0 && hunger <= 80 && energy >= 20 && happiness >= 30
  {
    if health <= 0 then Dead
    else if hunger > 80 then Starving
    else if energy < 20 then Tired
    else if happiness < 30 then Sad
    else Happy
  }

  /** The status block run after every change: a non-positive health also clears `is_alive`. */
  function Restatus(p: Pet): Pet {
    if p.health <= 0 then p.(alive := false, status := Dead)
    else p.(status := Ladder(p.health, p.hunger, p.energy, p.happiness))
  }

  lemma RestatusRule(p: Pet)
    ensures Restatus(p).status == Ladder(p.health, p.hunger, p.energy, p.happiness)
    ensures Restatus(p).alive == (p.alive && p.health > 0)
    ensures Restatus(p).(status := p.status, alive := p.alive) == p
  {
  }

  // ---------------------------------------------------------------------------
  // Owner actions

  function Fed(p: Pet, now: real): Pet {
    var hunger := Max(0, p.hunger - 15);
    var health := if hunger < 80 then Min(100, p.health + 2) else p.health;
    Restatus(p.(hunger := hunger, health := health, lastFed := now))
  }

  function Played(p: Pet, now: real): Pet {
    Restatus(p.(happiness := Min(100, p.happiness + 12), energy := Max(0, p.energy - 5), lastPlayed := now))
  }

  function Slept(p: Pet, now: real): Pet {
    var energy := Min(100, p.energy + 15);
    var happiness := if energy > 90 then Max(0, p.happiness - 2) else p.happiness;
    Restatus(p.(energy := energy, happiness := happiness, lastSlept := now))
  }

  /** Feeding lowers hunger by up to 15 and, when the pet is then below 80 hunger, raises health by up to 2. */
  lemma FeedRule(p: Pet, now: real)
    requires StatsInRange(p)
    ensures var r := Fed(p, now);
      && StatsInRange(r)
      && p.hunger - r.hunger == Min(15, p.hunger)
      && (r.hunger < 80 ==> r.health - p.health == Min(2, 100 - p.health))
      && (r.hunger >= 80 ==> r.health == p.health)
      && r.status == Ladder(r.health, r.hunger, r.energy, r.happiness)
      && r.lastFed == now
      && r.(hunger := p.hunger, health := p.health, lastFed := p.lastFed, status := p.status, alive := p.alive) == p
  {
  }

  /** Playing raises happiness by up to 12 and costs up to 5 energy. */
  lemma PlayRule(p: Pet, now: real)
    requires StatsInRange(p)
    ensures var r := Played(p, now);
      && StatsInRange(r)
      && r.happiness - p.happiness == Min(12, 100 - p.happiness)
      && p.energy - r.energy == Min(5, p.energy)
      && r.status == Ladder(r.health, r.hunger, r.energy, r.happiness)
      && r.lastPlayed == now
      && r.(happiness := p.happiness, energy := p.energy, lastPlayed := p.lastPlayed, status := p.status, alive := p.alive) == p
  {
  }

  /** Sleeping raises energy by up to 15; an over-slept pet (energy above 90) loses up to 2 happiness. */
  lemma SleepRule(p: Pet, now: real)
    requires StatsInRange(p)
    ensures var r := Slept(p, now);
      && StatsInRange(r)
      && r.energy - p.energy == Min(15, 100 - p.energy)
      && (r.energy > 90 ==> p.happiness - r.happiness == Min(2, p.happiness))
      && (r.energy <= 90 ==> r.happiness == p.happiness)
      && r.status == Ladder(r.health, r.hunger, r.energy, r.happiness)
      && r.lastSlept == now
      && r.(happiness := p.happiness, energy := p.energy, lastSlept := p.lastSlept, status := p.status, alive := p.alive) == p
  {
  }

  /** None of the three owner actions can kill a pet that has positive health. */
  lemma ActionsKeepPositiveHealth(p: Pet, now: real)
    requires 0 < p.health <= 100 && p.alive
    ensures Fed(p, now).alive && Played(p, now).alive && Slept(p, now).alive
    ensures Fed(p, now).health >= p.health && Played(p, now).health == p.health
    ensures Slept(p, now).health == p.health
  {
  }

  // ---------------------------------------------------------------------------
  // Support

  datatype Stat = HappinessStat | EnergyStat | HealthStat | HungerStat

  function StatValue(p: Pet, s: Stat): int {
    match s
    case HappinessStat => p.happiness
    case EnergyStat => p.energy
    case HealthStat => p.health
    case HungerStat => p.hunger
  }

  /**
   * Python's `min(candidates, key=...)` continued from `best`: scans left to
   * right and replaces the running minimum only on a strictly smaller key.
   */
  function MinFrom(p: Pet, best: Stat, rest: seq<Stat>): (r: Stat)
    ensures r == best || r in rest
    ensures StatValue(p, r) <= StatValue(p, best)
    ensures forall s :: s in rest ==> StatValue(p, r) <= StatValue(p, s)
    ensures r != best ==> StatValue(p, r) < StatValue(p, best)
    ensures forall j, i :: r != best && 0 <= i < j < |rest| && rest[j] == r && r !in rest[..j] ==>
      StatValue(p, rest[i]) > StatValue(p, r)
    decreases |rest|
  {
    if rest == [] then best
    else
      var next := if StatValue(p, rest[0]) < StatValue(p, best) then rest[0] else best;
      var r := MinFrom(p, next, rest[1..]);
      assert forall j, i :: r != best && 0 < i < j < |rest| && rest[j] == r && r !in rest[..j] ==>
        rest[1..][j - 1] == r && rest[1..][i - 1] == rest[i] && r !in rest[1..][..j - 1];
      r
  }

  /** The stat support improves: the first minimum of [happiness, energy, health, hunger], hunger by its raw value. */
  function Lowest(p: Pet): Stat {
    MinFrom(p, HappinessStat, [EnergyStat, HealthStat, HungerStat])
  }

  /** The ranking support uses, stated without the scan: ties go to the earlier stat, and hunger is not inverted. */
  lemma LowestRanking(p: Pet)
    ensures Lowest(p) == HappinessStat <==>
      p.happiness <= p.energy && p.happiness <= p.health && p.happiness <= p.hunger
    ensures Lowest(p) == EnergyStat <==>
      p.energy < p.happiness && p.energy <= p.health && p.energy <= p.hunger
    ensures Lowest(p) == HealthStat <==>
      p.health < p.happiness && p.health < p.energy && p.health <= p.hunger
    ensures Lowest(p) == HungerStat <==>
      p.hunger < p.happiness && p.hunger < p.energy && p.hunger < p.health
  {
    var order := [EnergyStat, HealthStat, HungerStat];
    var r := Lowest(p);
    assert order[..0] == [] && order[..1] == [EnergyStat] && order[..2] == [EnergyStat, HealthStat];
    if r == EnergyStat {
      assert order[0] == r && r !in order[..0];
    } else if r == HealthStat {
      assert order[1] == r && r !in order[..1];
    } else if r == HungerStat {
      assert order[2] == r && r !in order[..2];
    }
  }

  function Supported(p: Pet): Pet {
    var s := Lowest(p);
    var bumped := match s
      case HungerStat => p.(hunger := Max(0, p.hunger - 1))
      case HappinessStat => p.(happiness := Min(100, p.happiness + 1))
      case EnergyStat => p.(energy := Min(100, p.energy + 1))
      case HealthStat => p.(health := Min(100, p.health + 1));
    Restatus(bumped)
  }

  /** Support moves the lowest stat one step toward its good end and leaves the other three stats alone. */
  lemma SupportRule(p: Pet)
    requires StatsInRange(p)
    ensures var r := Supported(p);
      && StatsInRange(r)
      && (Lowest(p) == HungerStat ==> r.hunger == Max(0, p.hunger - 1))
      && (Lowest(p) != HungerStat ==> StatValue(r, Lowest(p)) == Min(100, StatValue(p, Lowest(p)) + 1))
      && (forall s :: s != Lowest(p) ==> StatValue(r, s) == StatValue(p, s))
      && r.status == Ladder(r.health, r.hunger, r.energy, r.happiness)
      && r.(happiness := p.happiness, energy := p.energy, health := p.health, hunger := p.hunger,
            status := p.status, alive := p.alive) == p
  {
  }

  /**
   * Because hunger is ranked by its raw value, a well-fed pet (hunger 0, the
   * lowest number) is "supported" by a hunger decrement that is floored at 0:
   * no stat changes at all. A starving pet is never helped on hunger.
   */
  lemma SupportCanChangeNothing(p: Pet)
    requires p.hunger == 0 && p.happiness > 0 && p.energy > 0 && p.health > 0
    ensures Lowest(p) == HungerStat
    ensures Supported(p).hunger == 0
    ensures forall s :: StatValue(Supported(p), s) == StatValue(p, s)
  {
    LowestRanking(p);
  }

  // ---------------------------------------------------------------------------
  // Revive, creation, relocation

  /** Revive ignores liveness: all stats to the baseline, alive, status hard-set to Happy, timestamps to now. */
  function Revived(p: Pet, now: real): (r: Pet)
    ensures r.happiness == r.hunger == r.energy == r.health == REVIVE_BASELINE
    ensures r.alive && r.status == Happy
    ensures r.lastFed == r.lastPlayed == r.lastSlept == now
    ensures r.(happiness := p.happiness, hunger := p.hunger, energy := p.energy, health := p.health,
               alive := p.alive, status := p.status,
               lastFed := p.lastFed, lastPlayed := p.lastPlayed, lastSlept := p.lastSlept) == p
  {
    p.(happiness := REVIVE_BASELINE, hunger := REVIVE_BASELINE, energy := REVIVE_BASELINE,
       health := REVIVE_BASELINE, alive := true, status := Happy,
       lastFed := now, lastPlayed := now, lastSlept := now)
  }

  /** The hard-set status disagrees with the ladder, which calls a 20/20/20/20 pet Sad. */
  lemma RevivedStatusIsNotTheLadder(p: Pet, now: real)
    ensures var r := Revived(p, now);
      r.status == Happy && Ladder(r.health, r.hunger, r.energy, r.happiness) == Sad
  {
  }

  /** Preconditions on the values `uuid`, `random.uniform` and `random.choice` supply to create. */
  ghost predicate SpawnChoice(x: real, y: real, direction: real, emoji: string) {
    && SPAWN_MARGIN <= x <= GAME_AREA_WIDTH - SPAWN_MARGIN
    && SPAWN_MARGIN <= y <= GAME_AREA_HEIGHT - SPAWN_MARGIN
    && 0.0 <= direction <= TWO_PI
    && emoji in EMOJIS
  }

  function NewPet(id: string, name: string, owner: string, x: real, y: real, direction: real,
                  emoji: string, now: real): (p: Pet)
    requires SpawnChoice(x, y, direction, emoji)
    ensures p.id == id && p.name == name && p.owner == owner
    ensures p.happiness == 100 && p.hunger == 0 && p.energy == 100 && p.health == 100
    ensures p.age == 0 && p.alive && p.status == Happy
    ensures p.status == Ladder(p.health, p.hunger, p.energy, p.happiness)
    ensures p.lastFed == p.lastPlayed == p.lastSlept == p.createdAt == now
    ensures InWorld(p.position) && p.position.speed == Some(1.0) && p.emoji in EMOJIS
    ensures SPAWN_MARGIN <= p.position.x <= GAME_AREA_WIDTH - SPAWN_MARGIN
    ensures SPAWN_MARGIN <= p.position.y <= GAME_AREA_HEIGHT - SPAWN_MARGIN
  {
    Pet(id, name, owner, 100, 0, 100, 100, 0, now, now, now, now, true, Happy,
        Position(x, y, Some(direction), Some(1.0)), emoji)
  }

  /** update_tamagotchi_location: clamp into the field, keep or default the heading and the speed. */
  function Relocated(p: Pet, x: real, y: real): (r: Pet)
    ensures InWorld(r.position)
    ensures 0.0 <= x <= GAME_AREA_WIDTH ==> r.position.x == x
    ensures 0.0 <= y <= GAME_AREA_HEIGHT ==> r.position.y == y
    ensures r.position.direction == Some(p.position.direction.GetOr(0.0))
    ensures r.position.speed == Some(p.position.speed.GetOr(1.0))
    ensures r.(position := p.position) == p
  {
    p.(position := Position(ClampReal(0.0, GAME_AREA_WIDTH, x), ClampReal(0.0, GAME_AREA_HEIGHT, y),
                            Some(p.position.direction.GetOr(0.0)), Some(p.position.speed.GetOr(1.0))))
  }

  // ---------------------------------------------------------------------------
  // Difficulty and decay

  /** _owner_difficulty: a missing owner or value, a non-number and 0 all read as 1.0. */
  function OwnerDifficulty(users: map<string, User>, owner: string): real {
    if owner !in users then 1.0
    else match users[owner].difficulty
      case None => 1.0
      case Some(NotANumber) => 1.0
      case Some(Number(v)) => if v == 0.0 then 1.0 else v
  }

  function ClampDifficulty(d: real): (r: real)
    ensures MIN_DIFFICULTY <= r <= MAX_DIFFICULTY
  {
    ClampReal(MIN_DIFFICULTY, MAX_DIFFICULTY, d)
  }

  /** The multiplier the decay tick uses for a pet of `owner`. */
  function EffectiveDifficulty(users: map<string, User>, owner: string): (d: real)
    ensures MIN_DIFFICULTY <= d <= MAX_DIFFICULTY
    ensures owner !in users || users[owner].difficulty in {None, Some(NotANumber), Some(Number(0.0))} ==> d == 1.0
    ensures owner in users && users[owner].difficulty.Some? && users[owner].difficulty.value.Number?
            && MIN_DIFFICULTY <= users[owner].difficulty.value.value <= MAX_DIFFICULTY
            ==> d == users[owner].difficulty.value.value
  {
    ClampDifficulty(OwnerDifficulty(users, owner))
  }

  /** set_user_difficulty's normalisation: a non-number becomes 1.0, then the clamp. */
  function NormalizeDifficulty(raw: Raw): (d: real)
    ensures MIN_DIFFICULTY <= d <= MAX_DIFFICULTY
    ensures raw == NotANumber ==> d == 1.0
    ensures raw.Number? && raw.value < MIN_DIFFICULTY ==> d == MIN_DIFFICULTY
    ensures raw.Number? && raw.value > MAX_DIFFICULTY ==> d == MAX_DIFFICULTY
    ensures raw.Number? && MIN_DIFFICULTY <= raw.value <= MAX_DIFFICULTY ==> d == raw.value
  {
    match raw
    case NotANumber => ClampDifficulty(1.0)
    case Number(v) => ClampDifficulty(v)
  }

  /** One pass of the decay loop's body over an alive pet, with difficulty `d` and clock `now`. */
  function Decayed(p: Pet, d: real, now: real): Pet
    requires d > 0.0
  {
    var hungerDue := now - p.lastFed > HUNGER_PERIOD / d;
    var playDue := now - p.lastPlayed > PLAY_PERIOD / d;
    var sleepDue := now - p.lastSlept > SLEEP_PERIOD / d;
    var hunger := if hungerDue then Min(100, p.hunger + 1) else p.hunger;
    var happiness := if playDue then Max(0, p.happiness - 1) else p.happiness;
    var energy := if sleepDue then Max(0, p.energy - 1) else p.energy;
    var health := if hunger > 80 || happiness < 20 || energy < 20 then Max(0, p.health - 1) else p.health;
    var stepped := p.(hunger := hunger, happiness := happiness, energy := energy, health := health,
                      lastFed := if hungerDue then now else p.lastFed,
                      lastPlayed := if playDue then now else p.lastPlayed,
                      lastSlept := if sleepDue then now else p.lastSlept);
    Restatus(stepped).(age := Trunc(now - p.createdAt))
  }

  /** What the decay loop does to the record under one key: dead pets are skipped. */
  function DecayEntry(p: Pet, users: map<string, User>, now: real): Pet {
    if p.alive then Decayed(p, EffectiveDifficulty(users, p.owner), now) else p
  }

  /** One decay step: each counter moves by one only once its scaled period has strictly elapsed, and then restarts. */
  lemma DecayRule(p: Pet, d: real, now: real)
    requires StatsInRange(p) && d > 0.0
    ensures var r := Decayed(p, d, now);
      && StatsInRange(r)
      && (now - p.lastFed > HUNGER_PERIOD / d ==> r.hunger == Min(100, p.hunger + 1) && r.lastFed == now)
      && (now - p.lastFed <= HUNGER_PERIOD / d ==> r.hunger == p.hunger && r.lastFed == p.lastFed)
      && (now - p.lastPlayed > PLAY_PERIOD / d ==> r.happiness == Max(0, p.happiness - 1) && r.lastPlayed == now)
      && (now - p.lastPlayed <= PLAY_PERIOD / d ==> r.happiness == p.happiness && r.lastPlayed == p.lastPlayed)
      && (now - p.lastSlept > SLEEP_PERIOD / d ==> r.energy == Max(0, p.energy - 1) && r.lastSlept == now)
      && (now - p.lastSlept <= SLEEP_PERIOD / d ==> r.energy == p.energy && r.lastSlept == p.lastSlept)
      && (r.hunger > 80 || r.happiness < 20 || r.energy < 20 ==> r.health == Max(0, p.health - 1))
      && (!(r.hunger > 80 || r.happiness < 20 || r.energy < 20) ==> r.health == p.health)
      && r.status == Ladder(r.health, r.hunger, r.energy, r.happiness)
      && r.alive == (p.alive && r.health > 0)
      && r.age == Trunc(now - p.createdAt)
      && r.id == p.id && r.owner == p.owner && r.position == p.position && r.createdAt == p.createdAt
  {
  }
}
