/** Entities and constants of the colony simulation (types.ts, constants.ts). */
module Types {

  /** Grid dimensions: the grid has Height rows of Width columns, indexed [y, x]. */
  const Width: int := 120
  const Height: int := 80
  /** Ticks per day/night cycle. */
  const DayLength: int := 2000
  /** Population cap for spawning. */
  const MaxAnts: int := 800
  /** Multiplicative per-tick pheromone decay. */
  const PheromoneDecay: real := 0.95
  /** Growth of a soldier's reach per level. */
  const LevelScaler: real := 0.15
  /** Fallback nest / storage coordinate used when no Queen or storage is known. */
  const NestX: int := 60
  const NestY: int := 35
  /** Rows above this depth form the sky band. */
  const SurfaceDepth: int := 15

  datatype Cell = Air | Dirt | Rock | Food | Nest | Storage | Nursery | Defense | Gem

  datatype AntType = Worker | Soldier | SuperSoldier | Queen

  datatype AntJob = Idle | Mining | Foraging | Returning | Building | Attacking | Sleeping | Fleeing

  datatype EnemyType = Spider | Beetle | Centipede | Wasp | Termite

  /** An ant. Positions of ants are always whole tiles. */
  datatype Ant = Ant(
    kind: AntType,
    x: int, y: int,
    job: AntJob,
    carrying: bool,
    health: real, maxHealth: real,
    energy: real,
    speed: real, strength: real,
    level: int, xp: real, kills: int)

  /** An enemy. Enemies move by fractions of a tile. */
  datatype Enemy = Enemy(kind: EnemyType, x: real, y: real, health: real, maxHealth: real)

  /** The colony's resource counters. */
  datatype Resources = Resources(food: int, materials: int, population: int, maxFood: int, score: real)

  datatype Pos = Pos(x: int, y: int)

  datatype Option<T> = None | Some(value: T)

  /** The player's tools for interacting with a tile. */
  datatype Tool = Dig | PlaceFood | Rally | BuildStorage | BuildNursery | BuildDefense | Warcry

  const InitialResources: Resources := Resources(300, 100, 1, 1000, 0.0)

  predicate InBounds(x: int, y: int) {
    0 <= x < Width && 0 <= y < Height
  }

  predicate IsCombatant(t: AntType) {
    t == Soldier || t == SuperSoldier
  }

  /** Food cost of spawning an ant of kind t; any kind without an entry costs as much as a Worker. */
  function AntFoodCost(t: AntType): (c: int)
    ensures c in {10, 30, 150}
    ensures t == Soldier <==> c == 30
    ensures t == SuperSoldier <==> c == 150
  {
    match t
    case Soldier => 30
    case SuperSoldier => 150
    case _ => 10
  }

  predicate IsBuildTool(tool: Tool) {
    tool == BuildStorage || tool == BuildNursery || tool == BuildDefense
  }

  /** Material cost of a build tool. */
  function BuildCost(tool: Tool): int
    requires IsBuildTool(tool)
  {
    match tool
    case BuildStorage => 10
    case BuildNursery => 20
    case BuildDefense => 5
  }

  /** Score awarded for a completed build. */
  function BuildReward(tool: Tool): real
    requires IsBuildTool(tool)
  {
    match tool
    case BuildStorage => 10.0
    case BuildNursery => 20.0
    case BuildDefense => 5.0
  }

  /** The tile a build tool places. */
  function BuildTarget(tool: Tool): Cell
    requires IsBuildTool(tool)
  {
    match tool
    case BuildStorage => Storage
    case BuildNursery => Nursery
    case BuildDefense => Defense
  }

  function Abs(r: real): real {
    if r < 0.0 then -r else r
  }

  /** Math.sign on a real. */
  function Sign(r: real): (s: int)
    ensures s in {-1, 0, 1}
    ensures s as real * r == Abs(r)
    ensures (s == 0) <==> (r == 0.0)
  {
    if r > 0.0 then 1 else if r < 0.0 then -1 else 0
  }

  /** Manhattan distance between two points. */
  function Manhattan(x1: real, y1: real, x2: real, y2: real): real {
    Abs(x1 - x2) + Abs(y1 - y2)
  }
}
