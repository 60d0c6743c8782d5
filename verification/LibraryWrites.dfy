// Item writes (internal/library/write.go): a partial update of one game, the
// run it opens or closes, and the session its minutes become.
module LibraryWrites {
  import opened Prelude
  import opened LibraryTypes
  import opened LibraryTables
  import opened LibraryLedger
  import Text

  // ---- A change, as its texts parse ---------------------------------------

  datatype StatusText = BlankStatus | Is(status: Status) | BadStatus
  datatype MediumText = AMedium(medium: Medium) | BadMedium
  datatype CompletionText = BlankCompletion | ACompletion(completion: Completion) | BadCompletion
  datatype DayText = NoDay | ADay(day: Day) | BadDay

  /** started_at and completed_at: absent, blank, a time, or unreadable. */
  datatype TimeText = Keep | Clear | At(time: Instant) | BadTime

  /** A partial update: what is absent keeps its stored value. */
  datatype Change = Change(
    status: Option<StatusText>, rating: Option<int>, minutes: Option<int>, minutesDelta: Option<int>,
    playedOn: DayText, sessionNote: string, tags: Option<seq<string>>, notes: Option<string>,
    startedAt: TimeText, completedAt: TimeText, platforms: Option<seq<string>>, platform: Option<string>,
    medium: Option<MediumText>, completion: Option<CompletionText>, edition: Option<GameId>)

  const NO_CHANGE := Change(None, None, None, None, NoDay, "", None, None, Keep, Keep, None, None, None, None, None)

  datatype Mode = Patch | Upsert

  /** The fields a write decides before it touches a row. */
  datatype ItemState = ItemState(
    status: Status, rating: int, tags: seq<string>, notes: string, platforms: seq<string>, medium: Medium)

  // ---- Deciding the new state ---------------------------------------------

  function Stored(prev: Option<Row>): ItemState {
    match prev
    case None => ItemState(Backlog, 0, [], "", [], NoMedium)
    case Some(r) => ItemState(r.status, r.rating, r.tags, r.notes, r.owned, r.medium)
  }

  function WantedPlatforms(prev: Option<Row>, ch: Change): seq<string> {
    if ch.platforms.Some? then ch.platforms.value
    else if ch.platform.Some? then
      var p := Text.Trim(ch.platform.value);
      if p == "" then [] else [p]
    else Stored(prev).platforms
  }

  predicate TagsFit(tags: seq<string>) {
    |tags| <= MAX_TAGS && forall i | 0 <= i < |tags| :: |tags[i]| <= MAX_TAG_CHARS
  }

  predicate PlatformsFit(platforms: seq<string>) {
    |platforms| <= MAX_PLATFORMS && forall i | 0 <= i < |platforms| :: Text.Bytes(platforms[i]) <= MAX_PLATFORM_BYTES
  }

  /** validateState, applied to what the change asks for. */
  function NextState(prev: Option<Row>, ch: Change): Result<ItemState, Error> {
    var was := Stored(prev);
    var rating := if ch.rating.Some? then ch.rating.value else was.rating;
    var notes := if ch.notes.Some? then ch.notes.value else was.notes;
    var tags := Text.Distinct(if ch.tags.Some? then ch.tags.value else was.tags, {});
    var platforms := Text.Distinct(WantedPlatforms(prev, ch), {});
    if ch.status.Some? && (ch.status.value.BadStatus? || (ch.status.value.BlankStatus? && prev.Some?)) then
      Err(Invalid("invalid_status"))
    else if rating < 0 || rating > 100 then Err(Invalid("invalid_rating"))
    else if |notes| > MAX_NOTES_CHARS then Err(Invalid("invalid_notes"))
    else if !TagsFit(tags) then Err(Invalid("invalid_tags"))
    else if ch.medium.Some? && ch.medium.value.BadMedium? then Err(Invalid("invalid_medium"))
    else if !PlatformsFit(platforms) then Err(Invalid("invalid_platform"))
    else
      var status := if ch.status.Some? && ch.status.value.Is? then ch.status.value.status else was.status;
      var medium := if ch.medium.Some? then ch.medium.value.medium else was.medium;
      Ok(ItemState(status, rating, tags, notes, platforms, medium))
  }

  /** Everything applyChange can refuse before its first write. */
  function Check(t: Tables, g: GameId, ch: Change, mode: Mode): Result<ItemState, Error> {
    var prev := RowOf(t, g);
    if ch.minutes.Some? && ch.minutesDelta.Some? then Err(Invalid("invalid_playtime"))
    else if ch.playedOn.BadDay? then Err(Invalid("invalid_date"))
    else if prev.None? && mode.Patch? then Err(NotFound)
    else
      var st := NextState(prev, ch);
      if st.Err? then st
      else if ch.completion.Some? && ch.completion.value.BadCompletion? then Err(Invalid("invalid_completion"))
      else if g !in t.games then Err(GameNotFound)
      else if ch.startedAt.BadTime? || ch.completedAt.BadTime? then Err(Invalid("invalid_timestamp"))
      else st
  }

  function RowOf(t: Tables, g: GameId): Option<Row> {
    if g in t.items then Some(t.items[g]) else None
  }

  // ---- Saving the row -----------------------------------------------------

  /** insertTimestamp: the timestamp a new row gets. */
  function InsertTime(v: TimeText, auto: bool, now: Instant): Option<Instant> {
    match v
    case Clear => None
    case At(at) => Some(at)
    case _ => if auto then Some(now) else None
  }

  /** The CASE of the upsert: an explicit value wins, a stored one stays, a status just entered sets it. */
  function KeepTime(v: TimeText, stored: Option<Instant>, entered: bool, now: Instant): Option<Instant> {
    match v
    case Clear => None
    case At(at) => Some(at)
    case _ => if stored.Some? then stored else if entered then Some(now) else None
  }

  function Primary(platforms: seq<string>): string {
    if platforms == [] then "" else platforms[0]
  }

  function NewRow(st: ItemState, ch: Change, now: Instant): Row {
    Row(st.status, st.rating, 0, st.tags, st.notes,
        InsertTime(ch.startedAt, st.status.Playing?, now), InsertTime(ch.completedAt, st.status.Completed?, now),
        now, now, Primary(st.platforms), st.medium, st.platforms, None, 0)
  }

  function ChangedRow(r: Row, st: ItemState, ch: Change, now: Instant): Row {
    r.(status := st.status, rating := st.rating, tags := st.tags, notes := st.notes,
       startedAt := KeepTime(ch.startedAt, r.startedAt, st.status.Playing? && !r.status.Playing?, now),
       completedAt := KeepTime(ch.completedAt, r.completedAt, st.status.Completed? && !r.status.Completed?, now),
       platform := Primary(st.platforms), owned := st.platforms, medium := st.medium, updatedAt := now)
  }

  /** INSERT ... ON CONFLICT DO UPDATE. */
  function SaveItem(t: Tables, g: GameId, st: ItemState, ch: Change, now: Instant): Result<Tables, Error> {
    if g in t.items then Ok(UpdateItem(t, g, ChangedRow(t.items[g], st, ch, now)))
    else InsertItem(t, g, NewRow(st, ch, now))
  }

  // ---- Keeping the journal in step ----------------------------------------

  function Today(playedOn: DayText, now: Instant): Day {
    if playedOn.ADay? then playedOn.day else now / SECONDS_PER_DAY
  }

  /** The current run, when it still exists. */
  function CurrentRun(t: Tables, g: GameId): Option<nat>
    requires g in t.items
  {
    var c := t.items[g].current;
    if c.Some? && c.value in t.runs then c else None
  }

  /** create: a new open run becomes the current one. */
  function OpenRun(t: Tables, g: GameId, platform: string, startedOn: Option<Day>, now: Instant): (Tables, Option<nat>)
  {
    var id := t.runSeq + 1;
    var made := InsertRun(t, id, Run(g, platform, startedOn, None, None, 0, None, "", now, None));
    if made.Err? || g !in made.value.items then (t, None)
    else (UpdateItem(made.value, g, made.value.items[g].(current := Some(id))), Some(id))
  }

  /** The first run takes the item's own start, or failing that today. */
  function FirstStart(row: Row, prev: Option<Row>, ch: Change, now: Instant): Option<Day> {
    if (!ch.startedAt.Keep? || (prev.Some? && prev.value.startedAt.Some?)) && row.startedAt.Some? then
      DayOf(row.startedAt)
    else Some(Today(ch.playedOn, now))
  }

  function Finished(r: Run, row: Row, st: ItemState, ch: Change, now: Instant): Run {
    var day := Today(ch.playedOn, now);
    r.(finishedOn := if st.status.Completed? && row.completedAt.Some? then DayOf(row.completedAt) else Some(day),
       completion := if st.status.Completed? then None else Some(Dropped),
       rating := if st.rating > 0 then Some(st.rating) else r.rating,
       platform := if r.platform == "" then Primary(st.platforms) else r.platform)
  }

  /** What a change of status does to the current run. */
  function MoveRun(t: Tables, g: GameId, prev: Option<Row>, st: ItemState, ch: Change,
                   now: Instant): (Tables, Option<nat>)
    requires g in t.items
  {
    var row := t.items[g];
    var cur := CurrentRun(t, g);
    var platform := Primary(st.platforms);
    if prev.Some? && prev.value.status == st.status then (t, cur)
    else if st.status.Playing? then
      if cur.None? then OpenRun(t, g, platform, FirstStart(row, prev, ch, now), now)
      else if t.runs[cur.value].finishedOn.Some? then OpenRun(t, g, platform, Some(Today(ch.playedOn, now)), now)
      else (t, cur)
    else if st.status.Completed? || st.status.Abandoned? then
      var (t1, c) := if cur.None? then OpenRun(t, g, platform, DayOf(row.startedAt), now) else (t, cur);
      if c.Some? && c.value in t1.runs then
        (UpdateRun(t1, c.value, Finished(t1.runs[c.value], row, st, ch, now)), c)
      else (t1, c)
    else (t, cur)
  }

  /** Explicit edits that flow into the current run. */
  function EditRun(r: Run, row: Row, st: ItemState, ch: Change): Run {
    var r1 := if ch.edition.Some? then r.(edition := ch.edition) else r;
    var said := st.status.Completed? || st.status.Abandoned?;
    var r2 := if ch.completion.Some? && said && !ch.completion.value.BadCompletion? then
                var c := ch.completion.value;
                r1.(completion := if c.ACompletion? then Some(c.completion) else None)
              else r1;
    var r3 := if ch.rating.Some? && st.status.Completed?
              then r2.(rating := if st.rating == 0 then None else Some(st.rating)) else r2;
    var r4 := if !ch.startedAt.Keep? then r3.(startedOn := DayOf(row.startedAt)) else r3;
    if !ch.completedAt.Keep? && st.status.Completed? then r4.(finishedOn := DayOf(row.completedAt)) else r4
  }

  /** updatePlaythroughs: the tables after, and the current run if there is one. */
  function UpdateRuns(t: Tables, g: GameId, prev: Option<Row>, st: ItemState, ch: Change,
                      now: Instant): (Tables, Option<nat>)
    requires g in t.items
  {
    var row := t.items[g];
    var (t1, c1) := MoveRun(t, g, prev, st, ch, now);
    var (t2, c2) :=
      if c1.None? && ch.edition.Some? && (st.status.Playing? || st.status.Completed?) then
        OpenRun(t1, g, Primary(st.platforms), FirstStart(row, prev, ch, now), now)
      else (t1, c1);
    if c2.Some? && c2.value in t2.runs then
      (UpdateRun(t2, c2.value, EditRun(t2.runs[c2.value], row, st, ch)), c2)
    else (t2, c2)
  }

  // ---- Logging the minutes ------------------------------------------------

  /** The minutes to log: a delta stops at the stored total, a total is set by its difference. */
  function Delta(total: int, ch: Change): int {
    if ch.minutesDelta.Some? then
      var d := ch.minutesDelta.value;
      if d < 0 && -d > total then -total else d
    else if ch.minutes.Some? then ch.minutes.value - total
    else 0
  }

  function DeltaSource(ch: Change): Source {
    if ch.minutesDelta.Some? && 0 < ch.minutesDelta.value <= MAX_SESSION_MINUTES then Manual else Adjust
  }

  /** insertSession, after the note's length check. */
  function LogSession(t: Tables, g: GameId, run: Option<nat>, day: Day, minutes: int, note: string, source: Source,
                      now: Instant)
    : Result<Tables, Error>
  {
    if |note| > MAX_SESSION_NOTE_CHARS then Err(Invalid("invalid_note"))
    else InsertSession(t, t.sessSeq + 1, Session(g, run, day, minutes, note, source, now), now)
  }

  function LogMinutes(t: Tables, g: GameId, run: Option<nat>, ch: Change, now: Instant): Result<Tables, Error>
    requires g in t.items
  {
    if ch.minutesDelta.None? && ch.minutes.Some? && ch.minutes.value < 0 then Err(Invalid("invalid_playtime"))
    else
      var d := Delta(t.items[g].minutes, ch);
      if d == 0 then Ok(t)
      else LogSession(t, g, run, Today(ch.playedOn, now), d, Text.Trim(ch.sessionNote), DeltaSource(ch), now)
  }

  /** applyChange: one item write. */
  function ApplyChange(t: Tables, g: GameId, ch: Change, mode: Mode, now: Instant): Result<Tables, Error> {
    var prev := RowOf(t, g);
    var st := Check(t, g, ch, mode);
    if st.Err? then Err(st.error)
    else
      var saved := SaveItem(t, g, st.value, ch, now);
      if saved.Err? || g !in saved.value.items then Err(Constraint)
      else
        var (t2, run) := UpdateRuns(saved.value, g, prev, st.value, ch, now);
        if g !in t2.items then Err(Constraint) else LogMinutes(t2, g, run, ch, now)
  }

  // ---- What a write keeps -------------------------------------------------

  lemma NextStateTidy(prev: Option<Row>, ch: Change)
    ensures NextState(prev, ch).Ok? ==>
              var st := NextState(prev, ch).value;
              Text.Tidy(st.tags) && Text.Tidy(st.platforms) && 0 <= st.rating <= 100
  {
    Text.DistinctIsTidy(if ch.tags.Some? then ch.tags.value else Stored(prev).tags, {});
    Text.DistinctIsTidy(WantedPlatforms(prev, ch), {});
    hide Text.Distinct, Text.Tidy;
  }

  ghost predicate GoodState(st: ItemState) {
    Text.Tidy(st.tags) && Text.Tidy(st.platforms) && 0 <= st.rating <= 100
  }

  lemma CheckIsGood(t: Tables, g: GameId, ch: Change, mode: Mode)
    ensures Check(t, g, ch, mode).Ok? ==>
              g in t.games && GoodState(Check(t, g, ch, mode).value)
              && NextState(RowOf(t, g), ch) == Check(t, g, ch, mode)
              && !(ch.minutes.Some? && ch.minutesDelta.Some?)
              && (g !in t.items ==> mode.Upsert?)
  {
    hide Text.Tidy, NextState;
    NextStateTidy(RowOf(t, g), ch);
  }

  /** The row a write leaves before the journal is brought in step. */
  function SavedRow(t: Tables, g: GameId, st: ItemState, ch: Change, now: Instant): Row {
    if g in t.items then ChangedRow(t.items[g], st, ch, now) else NewRow(st, ch, now)
  }

  lemma SaveItemMoves(t: Tables, g: GameId, st: ItemState, ch: Change, now: Instant)
    requires Sound(t) && GoodState(st) && g in t.games
    ensures SaveItem(t, g, st, ch, now).Ok?
    ensures var t1 := SaveItem(t, g, st, ch, now).value;
            Moves(t, t1, g) && g in t1.items
            && t1.items[g] == SavedRow(t, g, st, ch, now).(rev := t1.items[g].rev)
            && t1.runs == t.runs && t1.sessions == t.sessions && RevOf(t) < RevOf(t1)
            && t1.runSeq == t.runSeq && t1.sessSeq == t.sessSeq
  {
    hide Sound, Evolves, OnlyItem, Covered, Text.Tidy;
    if g in t.items {
      ItemIsSound(t, g);
      UpdateItemMoves(t, g, ChangedRow(t.items[g], st, ch, now));
    } else {
      InsertItemMoves(t, g, NewRow(st, ch, now));
    }
  }

  lemma FreshRunId(t: Tables)
    requires Sound(t)
    ensures t.runSeq + 1 !in t.runs && t.runSeq + 1 !in t.runOwner
  {
  }

  lemma FreshSessionId(t: Tables)
    requires Sound(t)
    ensures t.sessSeq + 1 !in t.sessions && t.sessSeq + 1 !in t.sessOwner
  {
    forall id | id in t.sessions ensures id <= t.sessSeq { assert SessionSound(t, id); }
  }

  function FreshRun(g: GameId, platform: string, startedOn: Option<Day>, now: Instant): Run {
    Run(g, platform, startedOn, None, None, 0, None, "", now, None)
  }

  lemma OpenRunMoves(t: Tables, g: GameId, platform: string, startedOn: Option<Day>, now: Instant)
    requires Sound(t) && g in t.items
    ensures var (t1, c) := OpenRun(t, g, platform, startedOn, now);
            var id := t.runSeq + 1;
            && Moves(t, t1, g) && c == Some(id) && id !in t.runs && g in t1.items
            && t1.items[g] == t.items[g].(current := c, rev := t1.items[g].rev)
            && t1.runs == t.runs[id := FreshRun(g, platform, startedOn, now)]
            && t1.sessions == t.sessions
  {
    hide Sound, Evolves, OnlyItem, Covered;
    FreshRunId(t);
    var id := t.runSeq + 1;
    InsertRunMoves(t, id, FreshRun(g, platform, startedOn, now));
    var t1 := InsertRun(t, id, FreshRun(g, platform, startedOn, now)).value;
    ItemIsSound(t1, g);
    UpdateItemMoves(t1, g, t1.items[g].(current := Some(id)));
    MovesTransitive(t, t1, UpdateItem(t1, g, t1.items[g].(current := Some(id))), g);
  }

  /** A run edit that leaves the minutes alone. */
  lemma EditRunMoves(t: Tables, id: nat, run: Run)
    requires Sound(t) && id in t.runs && run.game == t.runs[id].game && run.minutes == t.runs[id].minutes
    ensures Moves(t, UpdateRun(t, id, run), run.game)
    ensures UpdateRun(t, id, run) == t.(runs := t.runs[id := run])
  {
    UpdateRunMoves(t, id, run);
  }

  // ---- At most one open run -----------------------------------------------

  /** The current run, when set, exists and is this game's. */
  ghost predicate Linked(t: Tables, g: GameId)
    requires g in t.items
  {
    var c := t.items[g].current;
    c.Some? ==> c.value in t.runs && t.runs[c.value].game == g
  }

  predicate IsCurrent(t: Tables, id: nat) {
    id in t.runs && t.runs[id].game in t.items && t.items[t.runs[id].game].current == Some(id)
  }

  /** Every run of the game other than the current one is finished. */
  ghost predicate InOrder(t: Tables, g: GameId) {
    forall id | id in t.runs && t.runs[id].game == g && !IsCurrent(t, id) :: t.runs[id].finishedOn.Some?
  }

  /** The order of g's runs survives from t to t1. */
  ghost predicate KeepsOrder(t: Tables, t1: Tables, g: GameId) {
    InOrder(t, g) ==> InOrder(t1, g)
  }

  /** What bringing the runs in step leaves behind: only run c may differ, minutes never do. */
  ghost predicate RunsMoved(t: Tables, g: GameId, t1: Tables, c: Option<nat>)
    requires g in t.items
  {
    && Moves(t, t1, g) && g in t1.items && t1.sessions == t.sessions
    && t1.items[g] == t.items[g].(current := t1.items[g].current, rev := t1.items[g].rev)
    && Linked(t1, g) && KeepsOrder(t, t1, g) && c == t1.items[g].current
    && (forall id | id in t.runs ::
          id in t1.runs && t1.runs[id].minutes == t.runs[id].minutes && t1.runs[id].game == t.runs[id].game)
    && (forall id | id in t1.runs && id !in t.runs :: t1.runs[id].minutes == 0 && t1.runs[id].game == g)
    && (forall id | id in t1.runs && c != Some(id) :: id in t.runs && t1.runs[id] == t.runs[id])
  }

  /** The run c is open, and it is not one that had been finished. */
  ghost predicate OpensRun(t: Tables, t1: Tables, c: Option<nat>) {
    && c.Some? && c.value in t1.runs && t1.runs[c.value].finishedOn.None?
    && (c.value in t.runs ==> t.runs[c.value].finishedOn.None?)
  }

  lemma RunsMovedTransitive(t: Tables, g: GameId, t1: Tables, t2: Tables, c: Option<nat>)
    requires g in t.items && g in t1.items
    requires RunsMoved(t, g, t1, None) && RunsMoved(t1, g, t2, c)
    ensures RunsMoved(t, g, t2, c)
  {
    hide Moves, Linked, InOrder;
    MovesTransitive(t, t1, t2, g);
  }

  lemma OpenRunMoved(t: Tables, g: GameId, platform: string, startedOn: Option<Day>, now: Instant)
    requires Sound(t) && g in t.items && Linked(t, g)
    requires CurrentRun(t, g).Some? ==> t.runs[CurrentRun(t, g).value].finishedOn.Some?
    ensures var (t1, c) := OpenRun(t, g, platform, startedOn, now);
            RunsMoved(t, g, t1, c) && OpensRun(t, t1, c)
  {
    hide Sound, Evolves, OnlyItem, Covered, OpenRun;
    OpenRunMoves(t, g, platform, startedOn, now);
  }

  lemma EditRunMoved(t: Tables, g: GameId, t1: Tables, c: Option<nat>, run: Run)
    requires Sound(t) && g in t.items && RunsMoved(t, g, t1, c) && c.Some?
    requires run.game == g && run.minutes == t1.runs[c.value].minutes
    ensures RunsMoved(t, g, UpdateRun(t1, c.value, run), c)
  {
    hide Sound, Evolves, OnlyItem, Covered;
    EditRunMoves(t1, c.value, run);
    hide UpdateRun;
    MovesTransitive(t, t1, UpdateRun(t1, c.value, run), g);
  }

  lemma NoRunMoved(t: Tables, g: GameId)
    requires Sound(t) && g in t.items && Linked(t, g)
    ensures RunsMoved(t, g, t, CurrentRun(t, g))
  {
    hide Sound, Evolves, OnlyItem, Covered;
    MovesReflexive(t, g);
  }

  ghost predicate Enters(prev: Option<Row>, st: ItemState) {
    st.status.Playing? && (prev.None? || !prev.value.status.Playing?)
  }

  lemma MoveRunMoves(t: Tables, g: GameId, prev: Option<Row>, st: ItemState, ch: Change, now: Instant)
    requires Sound(t) && g in t.items && Linked(t, g)
    ensures var (t1, c) := MoveRun(t, g, prev, st, ch, now);
            RunsMoved(t, g, t1, c) && (Enters(prev, st) ==> OpensRun(t, t1, c))
  {
    hide Sound, Moves, OpenRun, RunsMoved;
    NoRunMoved(t, g);
    var row := t.items[g];
    var cur := CurrentRun(t, g);
    var platform := Primary(st.platforms);
    if prev.Some? && prev.value.status == st.status {
    } else if st.status.Playing? {
      if cur.None? {
        OpenRunMoved(t, g, platform, FirstStart(row, prev, ch, now), now);
      } else if t.runs[cur.value].finishedOn.Some? {
        OpenRunMoved(t, g, platform, Some(Today(ch.playedOn, now)), now);
      }
    } else if st.status.Completed? || st.status.Abandoned? {
      var (t1, c) := if cur.None? then OpenRun(t, g, platform, DayOf(row.startedAt), now) else (t, cur);
      if cur.None? { OpenRunMoved(t, g, platform, DayOf(row.startedAt), now); }
      MovedRun(t, g, t1, c);
      EditRunMoved(t, g, t1, c, Finished(t1.runs[c.value], row, st, ch, now));
    }
  }

  lemma MovedRun(t: Tables, g: GameId, t1: Tables, c: Option<nat>)
    requires g in t.items && RunsMoved(t, g, t1, c)
    ensures c.Some? ==> c.value in t1.runs && t1.runs[c.value].game == g
    ensures g in t1.items && Linked(t1, g) && KeepsOrder(t, t1, g) && Sound(t1) && c == CurrentRun(t1, g)
    ensures c.None? ==> t1.runs == t.runs
  {
    hide Sound, Evolves, OnlyItem, Covered;
    if c.None? {
      assert t1.runs.Keys == t.runs.Keys;
    }
  }

  lemma UpdateRunsMoves(t: Tables, g: GameId, prev: Option<Row>, st: ItemState, ch: Change, now: Instant)
    requires Sound(t) && g in t.items && Linked(t, g)
    ensures var (t1, c) := UpdateRuns(t, g, prev, st, ch, now);
            RunsMoved(t, g, t1, c) && (Enters(prev, st) ==> OpensRun(t, t1, c))
  {
    hide Sound, Moves, OpenRun, MoveRun, RunsMoved, Linked, InOrder;
    var row := t.items[g];
    MoveRunMoves(t, g, prev, st, ch, now);
    var (t1, c1) := MoveRun(t, g, prev, st, ch, now);
    MovedRun(t, g, t1, c1);
    var opens := c1.None? && ch.edition.Some? && (st.status.Playing? || st.status.Completed?);
    var (t2, c2) := if opens then OpenRun(t1, g, Primary(st.platforms), FirstStart(row, prev, ch, now), now)
                    else (t1, c1);
    if opens {
      OpenRunMoved(t1, g, Primary(st.platforms), FirstStart(row, prev, ch, now), now);
      RunsMovedTransitive(t, g, t1, t2, c2);
    }
    MovedRun(t, g, t2, c2);
    if c2.Some? {
      EditRunMoved(t, g, t2, c2, EditRun(t2.runs[c2.value], row, st, ch));
    }
  }

  // ---- What a write does to the minutes -----------------------------------

  /** The minutes a change leaves on a total. */
  function NewTotal(total: int, ch: Change): int {
    if ch.minutesDelta.Some? then Max(0, total + ch.minutesDelta.value)
    else if ch.minutes.Some? then ch.minutes.value
    else total
  }

  /** t2 is t1 with d minutes logged on game g, on its run c: one new session unless d is 0. */
  ghost predicate MinutesLogged(t1: Tables, g: GameId, t2: Tables, c: Option<nat>, d: int, source: Source)
    requires g in t1.items
  {
    && Moves(t1, t2, g) && g in t2.items
    && t2.items[g] == t1.items[g].(minutes := t1.items[g].minutes + d, updatedAt := t2.items[g].updatedAt,
                                   rev := t2.items[g].rev)
    && (forall id | id in t1.runs ::
          id in t2.runs && t2.runs[id] == t1.runs[id].(
            minutes := if c == Some(id) then Max(0, t1.runs[id].minutes + d) else t1.runs[id].minutes))
    && t2.runs.Keys == t1.runs.Keys
    && (if d == 0 then t2.sessions == t1.sessions
        else var id := t1.sessSeq + 1;
             && id !in t1.sessions && id in t2.sessions && t2.sessions == t1.sessions[id := t2.sessions[id]]
             && t2.sessions[id].game == g && t2.sessions[id].run == c && t2.sessions[id].minutes == d
             && t2.sessions[id].source == source)
  }

  lemma InsertSessionRow(t: Tables, id: nat, s: Session, now: Instant)
    requires InsertSession(t, id, s, now).Ok?
    ensures var t' := InsertSession(t, id, s, now).value;
            && s.game in t'.items
            && t'.items[s.game] == t.items[s.game].(
                 minutes := Max(0, t.items[s.game].minutes + s.minutes), updatedAt := now, rev := t'.items[s.game].rev)
            && t'.runSeq == t.runSeq && t'.sessSeq == Max(t.sessSeq, id) && RevOf(t') == RevOf(t) + 1
  {
  }

  lemma LogSessionMoves(t: Tables, g: GameId, c: Option<nat>, day: Day, d: int, note: string, source: Source,
                        now: Instant)
    requires Sound(t) && g in t.items && 0 <= t.items[g].minutes + d && d != 0
    requires c.Some? ==> c.value in t.runs && t.runs[c.value].game == g
    ensures var r := LogSession(t, g, c, day, d, note, source, now);
            r.Ok? ==>
              && MinutesLogged(t, g, r.value, c, d, source)
              && RevOf(t) < RevOf(r.value) && r.value.items[g].updatedAt == now
    ensures LogSession(t, g, c, day, d, note, source, now).Ok? <==>
            |note| <= MAX_SESSION_NOTE_CHARS && SessionCheck(Session(g, c, day, d, note, source, now))
  {
    hide Sound, Moves, MinutesLogged, InsertSession;
    FreshSessionId(t);
    InsertSessionOk(t, t.sessSeq + 1, Session(g, c, day, d, note, source, now), now);
    if |note| <= MAX_SESSION_NOTE_CHARS && SessionCheck(Session(g, c, day, d, note, source, now)) {
      NewSessionLogged(t, Session(g, c, day, d, note, source, now), now);
    }
  }

  lemma InsertSessionOk(t: Tables, id: nat, s: Session, now: Instant)
    ensures InsertSession(t, id, s, now).Ok? <==>
            id !in t.sessions && s.game in t.items && (s.run.Some? ==> s.run.value in t.runs) && SessionCheck(s)
  {
  }

  lemma NewSessionLogged(t: Tables, s: Session, now: Instant)
    requires Sound(t) && InsertSession(t, t.sessSeq + 1, s, now).Ok? && s.game in t.items
    requires 0 <= t.items[s.game].minutes + s.minutes && s.minutes != 0
    requires s.run.Some? ==> s.run.value in t.runs && t.runs[s.run.value].game == s.game
    ensures var t' := InsertSession(t, t.sessSeq + 1, s, now).value;
            && MinutesLogged(t, s.game, t', s.run, s.minutes, s.source)
            && RevOf(t) < RevOf(t') && t'.items[s.game].updatedAt == now
  {
    hide Sound, Moves, InsertSession;
    FreshSessionId(t);
    var id := t.sessSeq + 1;
    InsertSessionMoves(t, id, s, now);
    InsertSessionMinutes(t, id, s, now);
    InsertSessionRow(t, id, s, now);
  }

  lemma MovedKeeps(a: Tables, b: Tables, g: GameId)
    requires Moves(a, b, g)
    ensures Sound(b) && RevOf(a) <= RevOf(b)
  {
  }

  lemma LogMinutesMoves(t: Tables, g: GameId, c: Option<nat>, ch: Change, now: Instant)
    requires Sound(t) && g in t.items && !(ch.minutes.Some? && ch.minutesDelta.Some?)
    requires c.Some? ==> c.value in t.runs && t.runs[c.value].game == g
    ensures var r := LogMinutes(t, g, c, ch, now);
            r.Ok? ==>
              && MinutesLogged(t, g, r.value, c, NewTotal(t.items[g].minutes, ch) - t.items[g].minutes, DeltaSource(ch))
              && 0 <= NewTotal(t.items[g].minutes, ch)
              && RevOf(t) <= RevOf(r.value)
              && (r.value.items[g].updatedAt == now || r.value == t)
  {
    hide Sound, Evolves, OnlyItem, Covered, LogSession, Text.Tidy;
    ItemIsSound(t, g);
    MovesReflexive(t, g);
    if c.Some? { RunIsSound(t, c.value); }
    var d := Delta(t.items[g].minutes, ch);
    assert LogMinutes(t, g, c, ch, now).Ok? ==> NewTotal(t.items[g].minutes, ch) - t.items[g].minutes == d;
    if LogMinutes(t, g, c, ch, now).Ok? && d != 0 {
      LogSessionMoves(t, g, c, Today(ch.playedOn, now), d, Text.Trim(ch.sessionNote), DeltaSource(ch), now);
    }
  }

  lemma LinkedAfterLog(t1: Tables, g: GameId, t2: Tables, c: Option<nat>, d: int, source: Source)
    requires g in t1.items && MinutesLogged(t1, g, t2, c, d, source) && Linked(t1, g)
    ensures Linked(t2, g) && KeepsOrder(t1, t2, g)
  {
    hide Moves;
  }

  /** The stages of a committed write. */
  ghost predicate Stages(t: Tables, g: GameId, ch: Change, now: Instant, st: ItemState, t1: Tables, t2: Tables,
                         c: Option<nat>, t3: Tables) {
    && SaveItem(t, g, st, ch, now) == Ok(t1) && g in t1.items
    && UpdateRuns(t1, g, RowOf(t, g), st, ch, now) == (t2, c) && g in t2.items
    && LogMinutes(t2, g, c, ch, now) == Ok(t3)
  }

  lemma WriteStages(t: Tables, g: GameId, ch: Change, mode: Mode, now: Instant)
    returns (st: ItemState, t1: Tables, t2: Tables, c: Option<nat>, t3: Tables)
    requires ApplyChange(t, g, ch, mode, now).Ok?
    ensures Check(t, g, ch, mode) == Ok(st) && Stages(t, g, ch, now, st, t1, t2, c, t3)
    ensures t3 == ApplyChange(t, g, ch, mode, now).value
  {
    hide Check, SaveItem, UpdateRuns, LogMinutes;
    st := Check(t, g, ch, mode).value;
    t1 := SaveItem(t, g, st, ch, now).value;
    var moved := UpdateRuns(t1, g, RowOf(t, g), st, ch, now);
    t2, c := moved.0, moved.1;
    t3 := LogMinutes(t2, g, c, ch, now).value;
  }

  ghost predicate RunsLinked(t: Tables, g: GameId) {
    g in t.items ==> Linked(t, g)
  }

  function TotalOf(t: Tables, g: GameId): int {
    if g in t.items then t.items[g].minutes else 0
  }

  lemma SaveItemKeepsRuns(t: Tables, g: GameId, st: ItemState, ch: Change, now: Instant)
    requires Sound(t) && RunsLinked(t, g) && GoodState(st) && g in t.games
    ensures SaveItem(t, g, st, ch, now).Ok? && g in SaveItem(t, g, st, ch, now).value.items
    ensures Linked(SaveItem(t, g, st, ch, now).value, g) && KeepsOrder(t, SaveItem(t, g, st, ch, now).value, g)
  {
    hide Moves, SaveItem;
    if g !in t.items {
      forall id | id in t.runs ensures t.runs[id].game != g { RunIsSound(t, id); }
    }
    hide Sound;
    SaveItemMoves(t, g, st, ch, now);
  }

  /** What every committed stage keeps, put together. */
  lemma StagesKeep(t: Tables, g: GameId, ch: Change, now: Instant, st: ItemState, t1: Tables, t2: Tables,
                   c: Option<nat>, t3: Tables)
    requires Sound(t) && RunsLinked(t, g) && GoodState(st) && g in t.games
    requires !(ch.minutes.Some? && ch.minutesDelta.Some?)
    requires g in t1.items && g in t2.items && g in t3.items
    requires Stages(t, g, ch, now, st, t1, t2, c, t3)
    ensures Moves(t, t1, g) && t1.items[g] == SavedRow(t, g, st, ch, now).(rev := t1.items[g].rev)
    ensures t1.runs == t.runs && t1.sessions == t.sessions && Linked(t1, g) && KeepsOrder(t, t1, g)
            && RevOf(t) < RevOf(t1)
    ensures RunsMoved(t1, g, t2, c) && (Enters(RowOf(t, g), st) ==> OpensRun(t1, t2, c))
    ensures var total := t2.items[g].minutes;
            MinutesLogged(t2, g, t3, c, NewTotal(total, ch) - total, DeltaSource(ch))
            && (t3.items[g].updatedAt == now || t3 == t2) && 0 <= NewTotal(total, ch)
    ensures Linked(t2, g) && Linked(t3, g) && KeepsOrder(t, t3, g) && Moves(t2, t3, g)
            && RevOf(t1) <= RevOf(t2) <= RevOf(t3)
  {
    hide Sound, Moves, SaveItem, UpdateRuns, LogMinutes, RunsMoved, MinutesLogged, GoodState, Linked, InOrder;
    SaveItemMoves(t, g, st, ch, now);
    SaveItemKeepsRuns(t, g, st, ch, now);
    MovedKeeps(t, t1, g);
    UpdateRunsMoves(t1, g, RowOf(t, g), st, ch, now);
    MovedRun(t1, g, t2, c);
    RunsMovedMoves(t1, g, t2, c);
    LogMinutesMoves(t2, g, c, ch, now);
    MinutesLoggedMoves(t2, g, t3, c, NewTotal(t2.items[g].minutes, ch) - t2.items[g].minutes, DeltaSource(ch));
    LinkedAfterLog(t2, g, t3, c, NewTotal(t2.items[g].minutes, ch) - t2.items[g].minutes, DeltaSource(ch));
  }

  lemma RunsMovedMoves(t: Tables, g: GameId, t1: Tables, c: Option<nat>)
    requires g in t.items && RunsMoved(t, g, t1, c)
    ensures Moves(t, t1, g) && RevOf(t) <= RevOf(t1)
    ensures g in t1.items && t1.items[g] == t.items[g].(current := t1.items[g].current, rev := t1.items[g].rev)
  {
  }

  lemma MinutesLoggedMoves(t1: Tables, g: GameId, t2: Tables, c: Option<nat>, d: int, source: Source)
    requires g in t1.items && MinutesLogged(t1, g, t2, c, d, source)
    ensures Moves(t1, t2, g)
    ensures RevOf(t1) <= RevOf(t2)
  {
  }

  /**
   * A committed item write is sound, touches only that game, moves the
   * revision, keeps the ledger covered, and leaves at most one run open if
   * that was so before.
   */
  lemma ApplyChangeMoves(t: Tables, g: GameId, ch: Change, mode: Mode, now: Instant)
    requires Sound(t) && RunsLinked(t, g) && ApplyChange(t, g, ch, mode, now).Ok?
    ensures var t' := ApplyChange(t, g, ch, mode, now).value;
            Moves(t, t', g) && g in t'.items && Linked(t', g) && KeepsOrder(t, t', g) && RevOf(t) < RevOf(t')
  {
    hide ApplyChange, Stages, Sound, Moves, RunsMoved, MinutesLogged, Linked, InOrder, GoodState;
    var st, t1, t2, c, t3 := WriteStages(t, g, ch, mode, now);
    CheckIsGood(t, g, ch, mode);
    StagesExist(t, g, ch, now, st, t1, t2, c, t3);
    StagesKeep(t, g, ch, now, st, t1, t2, c, t3);
    RunsMovedMoves(t1, g, t2, c);
    MovesTransitive(t, t1, t2, g);
    MovesTransitive(t, t2, t3, g);
  }

  lemma StagesExist(t: Tables, g: GameId, ch: Change, now: Instant, st: ItemState, t1: Tables, t2: Tables,
                    c: Option<nat>, t3: Tables)
    requires Stages(t, g, ch, now, st, t1, t2, c, t3)
    ensures g in t1.items && g in t2.items && g in t3.items
  {
    hide SaveItem, UpdateRuns;
  }

  /** Logging succeeds unless the total asked for is negative or the note of a session to log too long. */
  lemma LogMinutesOk(t: Tables, g: GameId, c: Option<nat>, ch: Change, now: Instant)
    requires Sound(t) && g in t.items && !(ch.minutes.Some? && ch.minutesDelta.Some?)
    requires c.Some? ==> c.value in t.runs && t.runs[c.value].game == g
    ensures LogMinutes(t, g, c, ch, now).Ok? <==>
            && 0 <= NewTotal(t.items[g].minutes, ch)
            && (NewTotal(t.items[g].minutes, ch) == t.items[g].minutes
                || |Text.Trim(ch.sessionNote)| <= MAX_SESSION_NOTE_CHARS)
  {
    hide Sound, LogSession, Text.Trim, Moves, MinutesLogged;
    ItemIsSound(t, g);
    var d := Delta(t.items[g].minutes, ch);
    if d != 0 && 0 <= NewTotal(t.items[g].minutes, ch) {
      LogSessionMoves(t, g, c, Today(ch.playedOn, now), d, Text.Trim(ch.sessionNote), DeltaSource(ch), now);
    }
  }

  /** A write that passes the checks commits, unless its minutes cannot be logged. */
  lemma ApplyChangeCommits(t: Tables, g: GameId, ch: Change, mode: Mode, now: Instant)
    requires Sound(t) && RunsLinked(t, g)
    ensures ApplyChange(t, g, ch, mode, now).Ok? <==>
            && Check(t, g, ch, mode).Ok? && 0 <= NewTotal(TotalOf(t, g), ch)
            && (NewTotal(TotalOf(t, g), ch) == TotalOf(t, g) || |Text.Trim(ch.sessionNote)| <= MAX_SESSION_NOTE_CHARS)
  {
    hide Sound, Moves, SaveItem, UpdateRuns, LogMinutes, RunsMoved, GoodState, Linked, InOrder, Text.Trim;
    CheckIsGood(t, g, ch, mode);
    if Check(t, g, ch, mode).Ok? {
      var st := Check(t, g, ch, mode).value;
      hide Check;
      SaveItemMoves(t, g, st, ch, now);
      SaveItemKeepsRuns(t, g, st, ch, now);
      var t1 := SaveItem(t, g, st, ch, now).value;
      MovedKeeps(t, t1, g);
      UpdateRunsMoves(t1, g, RowOf(t, g), st, ch, now);
      var (t2, c) := UpdateRuns(t1, g, RowOf(t, g), st, ch, now);
      MovedRun(t1, g, t2, c);
      RunsMovedMoves(t1, g, t2, c);
      LogMinutesOk(t2, g, c, ch, now);
    }
  }

  /** The row a committed write leaves: exactly the fields asked for, the total as set or shifted. */
  lemma ApplyChangeRow(t: Tables, g: GameId, ch: Change, mode: Mode, now: Instant)
    requires Sound(t) && RunsLinked(t, g) && ApplyChange(t, g, ch, mode, now).Ok?
    ensures var t' := ApplyChange(t, g, ch, mode, now).value;
            && Check(t, g, ch, mode).Ok? && g in t'.items
            && t'.items[g] == SavedRow(t, g, Check(t, g, ch, mode).value, ch, now).(
                 minutes := NewTotal(TotalOf(t, g), ch), current := t'.items[g].current, rev := t'.items[g].rev)
            && 0 <= NewTotal(TotalOf(t, g), ch)
  {
    hide ApplyChange, Stages, Sound, Moves, Linked, InOrder, GoodState;
    var st, t1, t2, c, t3 := WriteStages(t, g, ch, mode, now);
    CheckIsGood(t, g, ch, mode);
    hide Check;
    StagesExist(t, g, ch, now, st, t1, t2, c, t3);
    StagesKeep(t, g, ch, now, st, t1, t2, c, t3);
  }

  lemma CheckStatus(t: Tables, g: GameId, ch: Change, mode: Mode)
    requires Check(t, g, ch, mode).Ok? && ch.status.Some? && ch.status.value.Is?
    ensures Check(t, g, ch, mode).value.status == ch.status.value.status
  {
  }

  /** Moving into playing ends with an open current run and leaves every finished run as it was. */
  lemma ApplyChangeStartsPlaying(t: Tables, g: GameId, ch: Change, mode: Mode, now: Instant)
    requires Sound(t) && RunsLinked(t, g) && ApplyChange(t, g, ch, mode, now).Ok?
    requires ch.status == Some(Is(Playing)) && (g in t.items ==> !t.items[g].status.Playing?)
    ensures var t' := ApplyChange(t, g, ch, mode, now).value;
            && g in t'.items && t'.items[g].status.Playing? && t'.items[g].current.Some?
            && t'.items[g].current.value in t'.runs && t'.runs[t'.items[g].current.value].finishedOn.None?
            && (forall id | id in t.runs && t.runs[id].game == g && t.runs[id].finishedOn.Some? ::
                  id in t'.runs && t'.runs[id] == t.runs[id])
  {
    hide ApplyChange, Stages, Sound, Moves, Linked, InOrder, GoodState, NewTotal;
    var st, t1, t2, c, t3 := WriteStages(t, g, ch, mode, now);
    CheckIsGood(t, g, ch, mode);
    CheckStatus(t, g, ch, mode);
    hide Check, NextState;
    StagesExist(t, g, ch, now, st, t1, t2, c, t3);
    StagesKeep(t, g, ch, now, st, t1, t2, c, t3);
  }

  /** Item writes never break the equality of the item's total and its sessions; a run's total they may. */
  lemma ApplyChangeExact(t: Tables, g: GameId, ch: Change, mode: Mode, now: Instant)
    requires Sound(t) && RunsLinked(t, g) && ApplyChange(t, g, ch, mode, now).Ok?
    requires g in t.items ==> ItemExact(t, g)
    ensures var t' := ApplyChange(t, g, ch, mode, now).value; g in t'.items && ItemExact(t', g)
  {
    hide ApplyChange, Stages, Sound, Moves, Linked, InOrder, GoodState, ItemSum;
    var st, t1, t2, c, t3 := WriteStages(t, g, ch, mode, now);
    CheckIsGood(t, g, ch, mode);
    hide Check;
    StagesExist(t, g, ch, now, st, t1, t2, c, t3);
    StagesKeep(t, g, ch, now, st, t1, t2, c, t3);
    EmptySums(t, g, 0);
    if t3.sessions != t2.sessions {
      SumsWith(t2.sessions, t2.sessSeq + 1, t3.sessions[t2.sessSeq + 1], g, 0);
    }
  }
}
