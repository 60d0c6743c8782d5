// The rows of a user's library, as the tables of internal/db/migrate.go
// declare them, and the values the library operations pass around. Instants
// are seconds, days are day numbers; text that the code only parses is given
// by what the parse yields.
module LibraryTypes {
  import opened Prelude

  type GameId = int
  type Instant = int
  type Day = int

  const SECONDS_PER_DAY := 86400
  const UNDO_WINDOW := 900
  const MAX_NOTES_CHARS := 10000
  const MAX_SESSION_NOTE_CHARS := 500
  const MAX_TAGS := 32
  const MAX_TAG_CHARS := 40
  const MAX_PLATFORMS := 32
  const MAX_PLATFORM_BYTES := 64
  const MAX_SESSION_MINUTES := 1440
  const MAX_IMPORT := 10000
  const MAX_BULK := 500

  datatype Status = Wishlist | Backlog | Playing | Paused | Completed | Abandoned
  datatype Medium = NoMedium | Physical | Digital
  datatype Completion = Main | MainExtras | Completionist | Endless | Dropped
  datatype Source = Manual | Timer | Legacy | Adjust | Steam | Import

  /** A catalog game: the columns that a library index entry shows, platforms as the IDs platforms_json holds. */
  datatype Game = Game(name: string, coverUrl: string, localCover: string, release: int, ttb: int, platforms: seq<int>)

  /** A library_items row. */
  datatype Row = Row(
    status: Status, rating: int, minutes: int, tags: seq<string>, notes: string,
    startedAt: Option<Instant>, completedAt: Option<Instant>, createdAt: Instant, updatedAt: Instant,
    platform: string, medium: Medium, owned: seq<string>, current: Option<nat>, rev: nat)

  /** A playthroughs row. */
  datatype Run = Run(
    game: GameId, platform: string, startedOn: Option<Day>, finishedOn: Option<Day>,
    completion: Option<Completion>, minutes: int, rating: Option<int>, note: string,
    createdAt: Instant, edition: Option<GameId>)

  /** A play_sessions row. */
  datatype Session = Session(
    game: GameId, run: Option<nat>, playedOn: Day, minutes: int, note: string, source: Source, createdAt: Instant)

  datatype Error =
    | NotFound
    | GameNotFound
    | Invalid(code: string)
    | Constraint        // a CHECK, key or foreign key the database refuses
    | UndoExpired
    | NoTimer

  /**
   * The tables one user's writes touch. Journal IDs come from AUTOINCREMENT
   * counters (runSeq, sessSeq) that every user shares. runOwner and sessOwner
   * are history: the game each ID was first given to. They are read only by
   * proofs.
   */
  datatype Tables = Tables(
    games: map<GameId, Game>,
    items: map<GameId, Row>,
    runs: map<nat, Run>,
    sessions: map<nat, Session>,
    tombs: map<GameId, nat>,
    rev: Option<nat>,              // user_state.library_rev; None before the row exists
    runSeq: nat, sessSeq: nat,
    runOwner: map<nat, GameId>, sessOwner: map<nat, GameId>)

  function DayOf(at: Option<Instant>): Option<Day> {
    if at.Some? then Some(at.value / SECONDS_PER_DAY) else None
  }
}
