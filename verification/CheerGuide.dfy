/**
 * Songs and their cheer guides. The old editor writes a song's lyrics; once a guide was imported for
 * the song, the same write also adds a snapshot and publishes it. Each function is one transaction
 * under the Song row lock. A guide is keyed by its unique (song, mode); its snapshots and publications
 * are the rows of its history in order of insertion.
 */
module CheerGuide {
  import opened Wrappers

  type SongId = nat
  type GuideId = nat

  datatype Segment = Segment(text: string)
  datatype Line = Line(start: nat, segments: seq<Segment>)
  type Lyrics = seq<Line>

  /** A JSON column: null, a document outside the contract, or lyrics. */
  datatype Stored = Null | Malformed(document: nat) | Document(lyrics: Lyrics)

  datatype Mode = Concert | Festival
  datatype Source = Official | Fandom
  datatype Action = Publish | Unpublish

  datatype Song = Song(lyrics: Stored, youtubeId: Option<string>, official: Option<bool>)

  datatype Origin = Origin(source: Source, sourceUrl: Option<string>, guideVideoUrl: Option<string>, description: Option<string>)

  datatype Snapshot = Snapshot(versionNo: nat, lyrics: Stored, reference: string, origin: Origin, author: Option<nat>)

  datatype Publication = Publication(publicationNo: nat, action: Action, snapshot: nat)

  datatype Guide = Guide(id: GuideId, legacyTarget: bool, current: Option<nat>, working: Option<nat>, lockVersion: nat,
                         snapshots: seq<Snapshot>, publications: seq<Publication>)

  datatype Key = Key(song: SongId, mode: Mode)

  datatype Db = Db(songs: map<SongId, Song>, guides: map<Key, Guide>, nextId: nat)

  const EMPTY_DB := Db(map[], map[], 0)

  datatype Fault =
    | SongNotFound | GuideNotFound | Conflict | ChangeRestricted | DraftPending | ContentInvalid
    | ImportConflict | IdentityTaken | LyricsInvalid | SourceInvalid | AlreadyExists | HasHistory | SlugImmutable | HasGuide

  datatype Version = Version(guide: GuideId, lockVersion: nat)

  datatype Reply =
    | Done
    | Saved(version: Option<Version>)
    | Created(id: nat)
    | Ready
    | Unchanged
    | Refused(fault: Fault)

  // ---------------------------------------------------------------- content

  predicate IsSpace(c: char) {
    c in {' ', '\t', '\n', '\r', '\U{000B}', '\U{000C}', '\U{00A0}', '\U{FEFF}'}
    || c in {'\U{1680}', '\U{2028}', '\U{2029}', '\U{202F}', '\U{205F}', '\U{3000}'}
    || '\U{2000}' <= c <= '\U{200A}'
  }

  predicate Blank(text: string) {
    forall i :: 0 <= i < |text| ==> IsSpace(text[i])
  }

  predicate HasText(lyrics: Lyrics) {
    exists line | line in lyrics :: exists segment | segment in line.segments :: !Blank(segment.text)
  }

  /** The lyrics contract: null reads as no lyrics, and a foreign document is rejected. */
  function Parse(stored: Stored): Option<Lyrics> {
    match stored
    case Null => Some([])
    case Malformed(_) => None
    case Document(lyrics) => Some(lyrics)
  }

  /** Import refuses null as well: the column must hold lyrics with some text. */
  predicate HasContent(stored: Stored) {
    stored.Document? && HasText(stored.lyrics)
  }

  predicate OriginOk(origin: Origin) {
    origin.source.Official? ==> origin.sourceUrl.Some?
  }

  function MaxVersion(snapshots: seq<Snapshot>): nat {
    if snapshots == [] then 0
    else
      var rest := MaxVersion(snapshots[..|snapshots| - 1]);
      var last := snapshots[|snapshots| - 1].versionNo;
      if last > rest then last else rest
  }

  function MaxPublication(publications: seq<Publication>): nat {
    if publications == [] then 0
    else
      var rest := MaxPublication(publications[..|publications| - 1]);
      var last := publications[|publications| - 1].publicationNo;
      if last > rest then last else rest
  }

  // ---------------------------------------------------------------- reading

  /** The current publication's snapshot, if the guide is published now. */
  function PublishedSnapshot(guide: Guide): Option<Snapshot> {
    if guide.current.Some? && guide.current.value < |guide.publications|
    then
      var p := guide.publications[guide.current.value];
      if p.action.Publish? && p.snapshot < |guide.snapshots| then Some(guide.snapshots[p.snapshot]) else None
    else None
  }

  function ShownSnapshot(db: Db, key: Key, youtubeId: string): Option<Snapshot> {
    if key !in db.guides then None
    else
      var s := PublishedSnapshot(db.guides[key]);
      if s.Some? && s.value.reference == youtubeId then s else None
  }

  predicate HasPublication(db: Db, song: SongId) {
    exists mode | mode in {Concert, Festival} :: Key(song, mode) in db.guides && db.guides[Key(song, mode)].publications != []
  }

  /** Published guides of the song's current video, concert first. */
  function CurrentPublished(db: Db, song: SongId, youtubeId: string): seq<Snapshot> {
    var concert := ShownSnapshot(db, Key(song, Concert), youtubeId);
    var festival := ShownSnapshot(db, Key(song, Festival), youtubeId);
    (if concert.Some? then [concert.value] else []) + (if festival.Some? then [festival.value] else [])
  }

  /** What a published snapshot must satisfy to be shown. */
  predicate Showable(s: Snapshot) {
    s.lyrics.Document? && HasText(s.lyrics.lyrics) && OriginOk(s.origin)
  }

  datatype Cheering = Shown(lyrics: Lyrics, official: bool) | SongContractError | GuideContractError

  function PublicCheering(db: Db, song: SongId, youtubeId: string): Cheering
    requires song in db.songs
  {
    if !HasPublication(db, song) then
      var own := Parse(db.songs[song].lyrics);
      if own.None? then SongContractError
      else Shown(own.value, db.songs[song].official == Some(true))
    else
      var shown := CurrentPublished(db, song, youtubeId);
      if exists i | 0 <= i < |shown| :: !Showable(shown[i]) then GuideContractError
      else if shown == [] then Shown([], false)
      else Shown(shown[0].lyrics.lyrics, shown[0].origin.source.Official?)
  }

  // ---------------------------------------------------------------- writing

  function LegacyMode(db: Db, song: SongId): (mode: Option<Mode>)
    ensures mode.Some? ==> Key(song, mode.value) in db.guides && db.guides[Key(song, mode.value)].legacyTarget
    ensures mode.None? && Key(song, Concert) in db.guides ==> !db.guides[Key(song, Concert)].legacyTarget
    ensures mode.None? && Key(song, Festival) in db.guides ==> !db.guides[Key(song, Festival)].legacyTarget
  {
    if Key(song, Concert) in db.guides && db.guides[Key(song, Concert)].legacyTarget then Some(Concert)
    else if Key(song, Festival) in db.guides && db.guides[Key(song, Festival)].legacyTarget then Some(Festival)
    else None
  }

  function LegacyKey(db: Db, song: SongId): Key
    requires LegacyMode(db, song).Some?
  {
    Key(song, LegacyMode(db, song).value)
  }

  /** One more snapshot, numbered after the highest. */
  function AddSnapshot(guide: Guide, lyrics: Stored, reference: string, origin: Origin, author: Option<nat>): Guide {
    guide.(snapshots := guide.snapshots + [Snapshot(MaxVersion(guide.snapshots) + 1, lyrics, reference, origin, author)])
  }

  function AddPublication(guide: Guide, action: Action, snapshot: nat): Guide {
    guide.(publications := guide.publications + [Publication(MaxPublication(guide.publications) + 1, action, snapshot)])
  }

  /** The next snapshot carries the current one's video and origin, and is published at once. */
  function PublishNext(guide: Guide, lyrics: Lyrics, current: Snapshot, actor: nat): Guide {
    var claimed := guide.(lockVersion := guide.lockVersion + 1);
    var added := AddSnapshot(claimed, Document(lyrics), current.reference, current.origin, Some(actor));
    var published := AddPublication(added, Publish, |added.snapshots| - 1);
    published.(current := Some(|published.publications| - 1))
  }

  /** A draft on top of the guide: one more snapshot, and nothing published. */
  function Drafted(g: Guide, lyrics: Lyrics, base: Snapshot, actor: nat): Guide {
    var added := AddSnapshot(g.(lockVersion := g.lockVersion + 1), Document(lyrics), base.reference, base.origin, Some(actor));
    added.(working := Some(|added.snapshots| - 1))
  }

  datatype Changes = Changes(lyrics: Option<Lyrics>, youtubeId: string, official: Option<bool>)

  /** The old editor's write to the guide it is tied to. The caller holds the song. */
  function WriteLegacy(db: Db, song: SongId, actor: nat, changes: Changes, expected: Option<Version>): (r: (Db, Reply))
    requires song in db.songs
    ensures r.0.songs == db.songs && r.0.nextId == db.nextId
    ensures r.1.Refused? ==> r.0 == db
  {
    var row := db.songs[song];
    var mode := LegacyMode(db, song);
    if mode.None? then
      if expected.Some? then (db, Refused(Conflict)) else (db, Saved(None))
    else
      var guide := db.guides[Key(song, mode.value)];
      if Some(changes.youtubeId) != row.youtubeId
         || (changes.official.Some? && changes.official.value != (row.official == Some(true))) then
        (db, Refused(ChangeRestricted))
      else if changes.lyrics.None? then (db, Saved(Some(Version(guide.id, guide.lockVersion))))
      else if guide.working.Some? then (db, Refused(DraftPending))
      else if expected != Some(Version(guide.id, guide.lockVersion)) then (db, Refused(Conflict))
      else
        var current := PublishedSnapshot(guide);
        if current.None? || current.value.reference != changes.youtubeId then (db, Refused(ChangeRestricted))
        else if !HasText(changes.lyrics.value) then (db, Refused(ContentInvalid))
        else
          var next := PublishNext(guide, changes.lyrics.value, current.value, actor);
          (db.(guides := db.guides[Key(song, mode.value) := next]), Saved(Some(Version(guide.id, next.lockVersion))))
  }

  function UpdateSong(db: Db, song: SongId, changes: Changes): Db
    requires song in db.songs
  {
    var row := db.songs[song];
    db.(songs := db.songs[song := Song(if changes.lyrics.Some? then Document(changes.lyrics.value) else row.lyrics,
                                       Some(changes.youtubeId),
                                       if changes.official.Some? then changes.official else row.official)])
  }

  /** `slugAllowed` is the slug policy's verdict, which comes last and undoes everything. */
  function EditSong(db: Db, song: SongId, actor: nat, changes: Changes, slugAllowed: bool, expected: Option<Version>): (Db, Reply) {
    if song !in db.songs then (db, Refused(SongNotFound))
    else
      var r := WriteLegacy(db, song, actor, changes, expected);
      if r.1.Refused? then (db, r.1)
      else if !slugAllowed then (db, Refused(SlugImmutable))
      else (UpdateSong(r.0, song, changes), r.1)
  }

  function SaveLyrics(db: Db, song: SongId, actor: nat, lyrics: Lyrics, youtubeId: string, expected: Option<Version>): (Db, Reply) {
    EditSong(db, song, actor, Changes(Some(lyrics), youtubeId, None), true, expected)
  }

  /** The fingerprint covers these three columns; it is injective, so it is modelled as the columns. */
  datatype Fingerprint = Fingerprint(lyrics: Stored, youtubeId: Option<string>, official: Option<bool>)

  function FingerprintOf(song: Song): Fingerprint { Fingerprint(song.lyrics, song.youtubeId, song.official) }

  datatype Entry = Entry(song: SongId, guide: GuideId, mode: Mode, reference: string, fingerprint: Fingerprint, origin: Origin)

  function ImportedGuide(entry: Entry, lyrics: Stored): Guide {
    Guide(entry.guide, true, Some(0), None, 1, [Snapshot(1, lyrics, entry.reference, entry.origin, None)],
          [Publication(1, Publish, 0)])
  }

  function OtherMode(mode: Mode): Mode { if mode.Concert? then Festival else Concert }

  predicate IdTaken(db: Db, id: GuideId) {
    exists key | key in db.guides :: db.guides[key].id == id
  }

  function ImportGuide(db: Db, entry: Entry, apply: bool): (Db, Reply) {
    if entry.song !in db.songs then (db, Refused(ImportConflict))
    else
      var row := db.songs[entry.song];
      var key, other := Key(entry.song, entry.mode), Key(entry.song, OtherMode(entry.mode));
      var otherLegacy := other in db.guides && db.guides[other].legacyTarget;
      if !HasContent(row.lyrics) || row.youtubeId != Some(entry.reference) || FingerprintOf(row) != entry.fingerprint then
        (db, Refused(ImportConflict))
      else if key in db.guides && db.guides[key].id == entry.guide then
        // Already imported: accepted only if it is still exactly what this entry made.
        if db.guides[key] == ImportedGuide(entry, row.lyrics).(working := db.guides[key].working) && !otherLegacy
        then (db, Unchanged) else (db, Refused(ImportConflict))
      // The entry's own guide under the other mode, a taken mode, or another import target.
      else if (other in db.guides && db.guides[other].id == entry.guide) || key in db.guides || otherLegacy then
        (db, Refused(ImportConflict))
      else if !apply then (db, Ready)
      // Another song's guide has the identity: the insert fails on the primary key.
      else if IdTaken(db, entry.guide) then (db, Refused(IdentityTaken))
      else
        (db.(guides := db.guides[key := ImportedGuide(entry, row.lyrics)],
             nextId := if entry.guide >= db.nextId then entry.guide + 1 else db.nextId), Done)
  }

  function CreateGuide(db: Db, song: SongId, mode: Mode, origin: Origin, actor: nat): (Db, Reply) {
    if song !in db.songs then (db, Refused(SongNotFound))
    else
      var row := db.songs[song];
      var lyrics := Parse(row.lyrics);
      if lyrics.None? then (db, Refused(LyricsInvalid))
      else if row.youtubeId.None? || Blank(row.youtubeId.value) then (db, Refused(SourceInvalid))
      else if Key(song, mode) in db.guides then (db, Refused(AlreadyExists))
      else
        var guide := AddSnapshot(Guide(db.nextId, false, None, None, 1, [], []), Document(lyrics.value), row.youtubeId.value,
                                 origin, Some(actor));
        (db.(guides := db.guides[Key(song, mode) := guide.(working := Some(0))], nextId := db.nextId + 1), Created(db.nextId))
  }

  /** The editor starts from the working copy, else the published one, else the latest snapshot. */
  function EditorSnapshot(guide: Guide): Option<Snapshot> {
    var index :=
      if guide.working.Some? then guide.working
      else if guide.current.Some? && guide.current.value < |guide.publications|
      then Some(guide.publications[guide.current.value].snapshot)
      else if guide.snapshots != [] then Some(|guide.snapshots| - 1)
      else None;
    if index.Some? && index.value < |guide.snapshots| then Some(guide.snapshots[index.value]) else None
  }

  function SaveDraft(db: Db, key: Key, id: GuideId, expected: nat, lyrics: Lyrics, actor: nat): (Db, Reply) {
    if key !in db.guides || db.guides[key].id != id then (db, Refused(GuideNotFound))
    else if key.song !in db.songs then (db, Refused(SongNotFound))
    else
      var guide := db.guides[key];
      var base := EditorSnapshot(guide);
      if base.None? then (db, Refused(GuideNotFound))
      else if guide.lockVersion != expected then (db, Refused(Conflict))
      else
        var next := Drafted(guide, lyrics, base.value, actor);
        (db.(guides := db.guides[key := next]), Saved(Some(Version(id, next.lockVersion))))
  }

  /** Only a guide without any history can be deleted. */
  function DeleteEmpty(db: Db, key: Key, id: GuideId): (Db, Reply) {
    if key !in db.guides || db.guides[key].id != id then (db, Refused(GuideNotFound))
    else if db.guides[key].snapshots != [] || db.guides[key].publications != [] then (db, Refused(HasHistory))
    else (db.(guides := db.guides - {key}), Done)
  }

  function DeleteSong(db: Db, song: SongId): (Db, Reply) {
    if song !in db.songs then (db, Refused(SongNotFound))
    else if Key(song, Concert) in db.guides || Key(song, Festival) in db.guides then (db, Refused(HasGuide))
    else (db.(songs := db.songs - {song}), Done)
  }

  datatype Op =
    | OpSong(row: Song)                        // a song row, new or from before the contracts
    | OpHistoryless(key: Key)                  // a guide row without history, from before snapshots
    | OpEdit(song: SongId, actor: nat, changes: Changes, slugAllowed: bool, expected: Option<Version>)
    | OpImport(entry: Entry, apply: bool)
    | OpCreate(song: SongId, mode: Mode, origin: Origin, actor: nat)
    | OpDraft(key: Key, id: GuideId, version: nat, lyrics: Lyrics, actor: nat)
    | OpDeleteEmpty(key: Key, id: GuideId)
    | OpDeleteSong(song: SongId)

  /** Inputs the HTTP schemas let through. */
  predicate OpOk(op: Op) {
    (op.OpImport? ==> OriginOk(op.entry.origin)) && (op.OpCreate? ==> OriginOk(op.origin))
  }

  function Step(db: Db, op: Op): (Db, Reply) {
    match op
    case OpSong(row) => (db.(songs := db.songs[db.nextId := row], nextId := db.nextId + 1), Created(db.nextId))
    case OpHistoryless(key) =>
      if key.song in db.songs && key !in db.guides
      then (db.(guides := db.guides[key := Guide(db.nextId, false, None, None, 1, [], [])], nextId := db.nextId + 1), Created(db.nextId))
      else (db, Refused(AlreadyExists))
    case OpEdit(song, actor, changes, slugAllowed, expected) => EditSong(db, song, actor, changes, slugAllowed, expected)
    case OpImport(entry, apply) => ImportGuide(db, entry, apply)
    case OpCreate(song, mode, origin, actor) => CreateGuide(db, song, mode, origin, actor)
    case OpDraft(key, id, version, lyrics, actor) => SaveDraft(db, key, id, version, lyrics, actor)
    case OpDeleteEmpty(key, id) => DeleteEmpty(db, key, id)
    case OpDeleteSong(song) => DeleteSong(db, song)
  }

  function Run(ops: seq<Op>): Db {
    if ops == [] then EMPTY_DB else Step(Run(ops[..|ops| - 1]), ops[|ops| - 1]).0
  }

  // ---------------------------------------------------------------- the invariant

  /** Versions and publication numbers count the history, without gaps. */
  predicate Dense(g: Guide) {
    && (if g.snapshots == [] then g.lockVersion == 1 && g.publications == [] else g.lockVersion == |g.snapshots|)
    && (forall i :: 0 <= i < |g.snapshots| ==> g.snapshots[i].versionNo == i + 1)
    && (forall i :: 0 <= i < |g.publications| ==> g.publications[i].publicationNo == i + 1)
    && (forall i :: 0 <= i < |g.publications| ==> g.publications[i].action.Publish? && g.publications[i].snapshot < |g.snapshots|)
    && (g.working.Some? ==> g.working.value < |g.snapshots|)
    && (forall i :: 0 <= i < |g.snapshots| ==> OriginOk(g.snapshots[i].origin))
  }

  /** Exactly the import target is published: its newest publication, with the song's own lyrics and video. */
  predicate Agrees(song: Song, g: Guide) {
    if g.legacyTarget
    then g.publications != [] && g.current == Some(|g.publications| - 1)
         && PublishedSnapshot(g).Some? && Showable(PublishedSnapshot(g).value)
         && PublishedSnapshot(g).value.lyrics == song.lyrics
         && song.youtubeId == Some(PublishedSnapshot(g).value.reference)
    else g.publications == [] && g.current.None?
  }

  predicate GuideOk(db: Db, key: Key)
    requires key in db.guides
  {
    && db.guides[key].id < db.nextId && key.song in db.songs
    && Dense(db.guides[key]) && Agrees(db.songs[key.song], db.guides[key])
    && (db.guides[key].legacyTarget && Key(key.song, OtherMode(key.mode)) in db.guides ==>
          !db.guides[Key(key.song, OtherMode(key.mode))].legacyTarget)
  }

  ghost predicate Inv(db: Db) {
    && (forall s | s in db.songs :: s < db.nextId)
    && (forall key | key in db.guides :: GuideOk(db, key))
    && (forall key, other | key in db.guides && other in db.guides && db.guides[key].id == db.guides[other].id :: key == other)
  }
}
