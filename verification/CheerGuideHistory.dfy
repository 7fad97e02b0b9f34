/**
 * What holds of cheer guides in every run: the public page shows the song's own lyrics, at most one guide
 * of a song is published, histories are dense and only grow, and two writers never get the same version.
 */
module CheerGuideHistory {
  import opened Wrappers
  import opened CheerGuide

  // ---------------------------------------------------------------- one guide

  lemma {:induction false} VersionsCount(snapshots: seq<Snapshot>)
    requires forall i :: 0 <= i < |snapshots| ==> snapshots[i].versionNo == i + 1
    ensures MaxVersion(snapshots) == |snapshots|
  {
    if snapshots != [] {
      VersionsCount(snapshots[..|snapshots| - 1]);
    }
  }

  lemma {:induction false} PublicationsCount(publications: seq<Publication>)
    requires forall i :: 0 <= i < |publications| ==> publications[i].publicationNo == i + 1
    ensures MaxPublication(publications) == |publications|
  {
    if publications != [] {
      PublicationsCount(publications[..|publications| - 1]);
    }
  }

  lemma PublishNextIsDense(g: Guide, lyrics: Lyrics, current: Snapshot, actor: nat)
    requires Dense(g) && g.snapshots != [] && OriginOk(current.origin)
    ensures Dense(PublishNext(g, lyrics, current, actor))
    ensures Extends(g, PublishNext(g, lyrics, current, actor))
  {
    VersionsCount(g.snapshots);
    PublicationsCount(g.publications);
  }

  lemma PublishNextAgrees(song: Song, g: Guide, lyrics: Lyrics, current: Snapshot, actor: nat)
    requires g.legacyTarget && HasText(lyrics) && OriginOk(current.origin)
    requires song.lyrics == Document(lyrics) && song.youtubeId == Some(current.reference)
    ensures Agrees(song, PublishNext(g, lyrics, current, actor))
    ensures PublishedSnapshot(PublishNext(g, lyrics, current, actor)).Some?
    ensures PublishedSnapshot(PublishNext(g, lyrics, current, actor)).value.origin == current.origin
  {
  }

  lemma DraftedIsDense(song: Song, g: Guide, lyrics: Lyrics, base: Snapshot, actor: nat)
    requires Dense(g) && g.snapshots != [] && OriginOk(base.origin) && Agrees(song, g)
    ensures Dense(Drafted(g, lyrics, base, actor)) && Agrees(song, Drafted(g, lyrics, base, actor))
    ensures Extends(g, Drafted(g, lyrics, base, actor))
    ensures PublishedSnapshot(Drafted(g, lyrics, base, actor)) == PublishedSnapshot(g)
  {
    VersionsCount(g.snapshots);
  }

  /** `after` is `before` with rows appended: no row is changed, and the version says whether any was added. */
  predicate Extends(before: Guide, after: Guide) {
    && before.snapshots <= after.snapshots && before.publications <= after.publications
    && before.lockVersion <= after.lockVersion
    && (before.snapshots != [] ==>
          after.id == before.id && after.legacyTarget == before.legacyTarget
          && (after.lockVersion == before.lockVersion ==> after == before))
  }

  // ---------------------------------------------------------------- one step

  lemma WrittenGuideKeepsInv(db: Db, t: Db, key: Key, g: Guide)
    requires Inv(db) && t.guides == db.guides[key := g] && db.nextId <= t.nextId
    requires t.songs.Keys == db.songs.Keys && key.song in t.songs
    requires forall s | s in db.songs && s != key.song :: t.songs[s] == db.songs[s]
    requires g.id < t.nextId && Dense(g) && Agrees(t.songs[key.song], g)
    requires Key(key.song, OtherMode(key.mode)) in db.guides ==>
               Agrees(t.songs[key.song], db.guides[Key(key.song, OtherMode(key.mode))])
               && !(g.legacyTarget && db.guides[Key(key.song, OtherMode(key.mode))].legacyTarget)
    requires forall k | k in db.guides && k != key :: db.guides[k].id != g.id
    ensures Inv(t)
  {
    forall k | k in t.guides
      ensures GuideOk(t, k)
    {
      if k != key {
        assert GuideOk(db, k);
        if k.song == key.song {
          assert k == Key(key.song, OtherMode(key.mode));
        }
      }
    }
  }

  /** The guide at `key` replaced by a later version of itself. */
  lemma RewrittenGuideKeepsInv(db: Db, t: Db, key: Key, g: Guide)
    requires Inv(db) && key in db.guides && t.guides == db.guides[key := g] && db.nextId == t.nextId
    requires t.songs.Keys == db.songs.Keys && key.song in t.songs
    requires forall s | s in db.songs && s != key.song :: t.songs[s] == db.songs[s]
    requires t.songs == db.songs || db.guides[key].legacyTarget
    requires g.id == db.guides[key].id && g.legacyTarget == db.guides[key].legacyTarget
    requires Dense(g) && Agrees(t.songs[key.song], g)
    ensures Inv(t)
  {
    assert GuideOk(db, key);
    var other := Key(key.song, OtherMode(key.mode));
    if other in db.guides {
      assert GuideOk(db, other);
    }
    WrittenGuideKeepsInv(db, t, key, g);
  }

  /** Song rows changed only where no guide looks, or where the guides still agree. */
  lemma SongsKeepInv(db: Db, t: Db)
    requires Inv(db) && t.guides == db.guides && db.nextId <= t.nextId
    requires forall s | s in t.songs :: s < t.nextId
    requires forall key | key in db.guides :: key.song in t.songs && Agrees(t.songs[key.song], db.guides[key])
    ensures Inv(t)
  {
  }

  lemma FewerGuidesKeepInv(db: Db, key: Key)
    requires Inv(db)
    ensures Inv(db.(guides := db.guides - {key}))
  {
  }

  lemma EditKeepsInv(db: Db, song: SongId, actor: nat, changes: Changes, slugAllowed: bool, expected: Option<Version>, t: Db)
    requires Inv(db) && t == EditSong(db, song, actor, changes, slugAllowed, expected).0
    ensures Inv(t)
  {
    if song in db.songs && slugAllowed {
      var r := WriteLegacy(db, song, actor, changes, expected);
      if !r.1.Refused? {
        var mode := LegacyMode(db, song);
        if mode.None? {
          forall key | key in db.guides
            ensures key.song in t.songs && Agrees(t.songs[key.song], db.guides[key])
          {
            assert GuideOk(db, key);
            if key.song == song {
              assert key == Key(song, key.mode);
            }
          }
          SongsKeepInv(db, t);
        } else {
          EditOfGuideKeepsInv(db, song, mode.value, actor, changes, expected, t);
        }
      }
    }
  }

  lemma LyricsEditKeepsInv(db: Db, song: SongId, mode: Mode, actor: nat, changes: Changes, t: Db)
    requires Inv(db) && song in db.songs && LegacyMode(db, song) == Some(mode) && changes.lyrics.Some?
    requires PublishedSnapshot(db.guides[Key(song, mode)]).Some? && HasText(changes.lyrics.value)
    requires PublishedSnapshot(db.guides[Key(song, mode)]).value.reference == changes.youtubeId
    requires t == UpdateSong(db.(guides := db.guides[Key(song, mode) := PublishNext(db.guides[Key(song, mode)], changes.lyrics.value,
                                                      PublishedSnapshot(db.guides[Key(song, mode)]).value, actor)]), song, changes)
    ensures Inv(t)
  {
    var key := Key(song, mode);
    var g := db.guides[key];
    assert GuideOk(db, key);
    var current := PublishedSnapshot(g).value;
    PublishNextIsDense(g, changes.lyrics.value, current, actor);
    PublishNextAgrees(t.songs[song], g, changes.lyrics.value, current, actor);
    RewrittenGuideKeepsInv(db, t, key, PublishNext(g, changes.lyrics.value, current, actor));
  }

  lemma EditOfGuideKeepsInv(db: Db, song: SongId, mode: Mode, actor: nat, changes: Changes, expected: Option<Version>, t: Db)
    requires Inv(db) && song in db.songs && LegacyMode(db, song) == Some(mode)
    requires !WriteLegacy(db, song, actor, changes, expected).1.Refused?
    requires t == UpdateSong(WriteLegacy(db, song, actor, changes, expected).0, song, changes)
    ensures Inv(t)
  {
    if changes.lyrics.Some? {
      LyricsEditKeepsInv(db, song, mode, actor, changes, t);
    } else {
      var key := Key(song, mode);
      assert GuideOk(db, key);
      assert t.guides == db.guides[key := db.guides[key]];
      RewrittenGuideKeepsInv(db, t, key, db.guides[key]);
    }
  }

  lemma ImportKeepsInv(db: Db, entry: Entry, apply: bool, t: Db)
    requires Inv(db) && OriginOk(entry.origin) && t == ImportGuide(db, entry, apply).0
    ensures Inv(t)
  {
    if ImportGuide(db, entry, apply).1.Done? {
      var other := Key(entry.song, OtherMode(entry.mode));
      if other in db.guides {
        assert GuideOk(db, other);
      }
      WrittenGuideKeepsInv(db, t, Key(entry.song, entry.mode), ImportedGuide(entry, db.songs[entry.song].lyrics));
    }
  }

  lemma CreateKeepsInv(db: Db, song: SongId, mode: Mode, origin: Origin, actor: nat, t: Db)
    requires Inv(db) && OriginOk(origin) && t == CreateGuide(db, song, mode, origin, actor).0
    ensures Inv(t)
  {
    if CreateGuide(db, song, mode, origin, actor).1.Created? {
      var key, other := Key(song, mode), Key(song, OtherMode(mode));
      if other in db.guides {
        assert GuideOk(db, other);
      }
      forall k | k in db.guides
        ensures db.guides[k].id != db.nextId
      {
        assert GuideOk(db, k);
      }
      WrittenGuideKeepsInv(db, t, key, t.guides[key]);
    }
  }

  lemma DraftKeepsInv(db: Db, key: Key, id: GuideId, version: nat, lyrics: Lyrics, actor: nat, t: Db)
    requires Inv(db) && t == SaveDraft(db, key, id, version, lyrics, actor).0
    ensures Inv(t)
  {
    if SaveDraft(db, key, id, version, lyrics, actor).1.Saved? {
      var g := db.guides[key];
      assert GuideOk(db, key);
      var base := EditorSnapshot(g).value;
      DraftedIsDense(db.songs[key.song], g, lyrics, base, actor);
      RewrittenGuideKeepsInv(db, t, key, Drafted(g, lyrics, base, actor));
    }
  }

  lemma HistorylessKeepsInv(db: Db, key: Key, t: Db)
    requires Inv(db) && t == Step(db, OpHistoryless(key)).0
    ensures Inv(t)
  {
    if key.song in db.songs && key !in db.guides {
      var other := Key(key.song, OtherMode(key.mode));
      if other in db.guides {
        assert GuideOk(db, other);
      }
      forall k | k in db.guides
        ensures db.guides[k].id != db.nextId
      {
        assert GuideOk(db, k);
      }
      WrittenGuideKeepsInv(db, t, key, t.guides[key]);
    }
  }

  lemma NewSongKeepsInv(db: Db, row: Song, t: Db)
    requires Inv(db) && t == Step(db, OpSong(row)).0
    ensures Inv(t)
  {
  }

  lemma DeletedSongKeepsInv(db: Db, song: SongId, t: Db)
    requires Inv(db) && t == DeleteSong(db, song).0
    ensures Inv(t)
  {
    if DeleteSong(db, song).1.Done? {
      forall key | key in db.guides
        ensures key.song in t.songs && Agrees(t.songs[key.song], db.guides[key])
      {
        assert GuideOk(db, key);
        assert key == Key(key.song, key.mode) && (key.mode == Concert || key.mode == Festival);
      }
      SongsKeepInv(db, t);
    }
  }

  lemma StepKeepsInv(db: Db, op: Op, t: Db)
    requires Inv(db) && OpOk(op) && t == Step(db, op).0
    ensures Inv(t)
  {
    match op
    case OpSong(row) => NewSongKeepsInv(db, row, t);
    case OpDeleteSong(song) => DeletedSongKeepsInv(db, song, t);
    case OpHistoryless(key) => HistorylessKeepsInv(db, key, t);
    case OpEdit(song, actor, changes, slugAllowed, expected) => EditKeepsInv(db, song, actor, changes, slugAllowed, expected, t);
    case OpImport(entry, apply) => ImportKeepsInv(db, entry, apply, t);
    case OpCreate(song, mode, origin, actor) => CreateKeepsInv(db, song, mode, origin, actor, t);
    case OpDraft(key, id, version, lyrics, actor) => DraftKeepsInv(db, key, id, version, lyrics, actor, t);
    case OpDeleteEmpty(key, id) =>
      if t != db { FewerGuidesKeepInv(db, key); }
  }

  ghost predicate OpsOk(ops: seq<Op>) {
    forall i :: 0 <= i < |ops| ==> OpOk(ops[i])
  }

  lemma {:induction false} RunKeepsInv(ops: seq<Op>)
    requires OpsOk(ops)
    ensures Inv(Run(ops))
  {
    if ops != [] {
      var before := ops[..|ops| - 1];
      RunKeepsInv(before);
      StepKeepsInv(Run(before), ops[|ops| - 1], Run(ops));
    }
  }

  // ---------------------------------------------------------------- what readers see

  /** Inside the invariant only the import target can be shown, and it is shown exactly for the song's video. */
  lemma ShownIsTheLegacyGuide(db: Db, key: Key, youtubeId: string)
    requires Inv(db) && key in db.guides
    ensures ShownSnapshot(db, key, youtubeId).Some? <==>
              db.guides[key].legacyTarget && db.songs[key.song].youtubeId == Some(youtubeId)
    ensures ShownSnapshot(db, key, youtubeId).Some? ==>
              Showable(ShownSnapshot(db, key, youtubeId).value)
              && ShownSnapshot(db, key, youtubeId).value.lyrics == db.songs[key.song].lyrics
  {
  }

  lemma AtMostOneIsShown(db: Db, song: SongId, youtubeId: string)
    requires Inv(db) && song in db.songs
    ensures |CurrentPublished(db, song, youtubeId)| <= 1
    ensures db.songs[song].youtubeId == Some(youtubeId) ==>
              (|CurrentPublished(db, song, youtubeId)| == 1 <==> HasPublication(db, song))
    ensures forall i :: 0 <= i < |CurrentPublished(db, song, youtubeId)| ==>
              Showable(CurrentPublished(db, song, youtubeId)[i])
              && CurrentPublished(db, song, youtubeId)[i].lyrics == db.songs[song].lyrics
  {
  }

  /** The two copies of the lyrics agree on the public page, whichever one it reads, in every run. */
  lemma PublicLyricsAreTheSongs(ops: seq<Op>, song: SongId, youtubeId: string)
    requires OpsOk(ops) && song in Run(ops).songs && Run(ops).songs[song].youtubeId == Some(youtubeId)
    ensures PublicCheering(Run(ops), song, youtubeId) !=  GuideContractError
    ensures PublicCheering(Run(ops), song, youtubeId).SongContractError? <==> Run(ops).songs[song].lyrics.Malformed?
    ensures PublicCheering(Run(ops), song, youtubeId).Shown? ==>
              Some(PublicCheering(Run(ops), song, youtubeId).lyrics) == Parse(Run(ops).songs[song].lyrics)
    ensures |CurrentPublished(Run(ops), song, youtubeId)| <= 1
  {
    RunKeepsInv(ops);
    AtMostOneIsShown(Run(ops), song, youtubeId);
  }

  // ---------------------------------------------------------------- history only grows

  predicate Kept(db: Db, t: Db, key: Key)
    requires key in db.guides
  {
    if key in t.guides then Extends(db.guides[key], t.guides[key]) else db.guides[key].snapshots == []
  }

  /** All an edit can do to the guides: publish the next snapshot of the song's import target. */
  predicate EditedGuides(db: Db, song: SongId, actor: nat, changes: Changes, t: Db) {
    || t.guides == db.guides
    || (LegacyMode(db, song).Some? && changes.lyrics.Some?
        && var key := LegacyKey(db, song);
           PublishedSnapshot(db.guides[key]).Some?
           && t.guides == db.guides[key := PublishNext(db.guides[key], changes.lyrics.value,
                                                       PublishedSnapshot(db.guides[key]).value, actor)])
  }

  lemma EditOnlyPublishes(db: Db, song: SongId, actor: nat, changes: Changes, slugAllowed: bool, expected: Option<Version>, t: Db)
    requires t == EditSong(db, song, actor, changes, slugAllowed, expected).0
    ensures EditedGuides(db, song, actor, changes, t)
  {
  }

  predicate DraftedGuides(db: Db, key: Key, lyrics: Lyrics, actor: nat, t: Db) {
    || t == db
    || (key in db.guides && EditorSnapshot(db.guides[key]).Some?
        && t == db.(guides := db.guides[key := Drafted(db.guides[key], lyrics, EditorSnapshot(db.guides[key]).value, actor)]))
  }

  lemma DraftOnlyDrafts(db: Db, key: Key, id: GuideId, version: nat, lyrics: Lyrics, actor: nat, t: Db)
    requires t == SaveDraft(db, key, id, version, lyrics, actor).0
    ensures DraftedGuides(db, key, lyrics, actor, t)
  {
  }

  lemma EditKeepsHistory(db: Db, song: SongId, actor: nat, changes: Changes, key: Key, t: Db)
    requires key in db.guides && GuideOk(db, key) && EditedGuides(db, song, actor, changes, t)
    ensures Kept(db, t, key)
  {
  }

  lemma DraftKeepsHistory(db: Db, written: Key, lyrics: Lyrics, actor: nat, key: Key, t: Db)
    requires key in db.guides && GuideOk(db, key) && DraftedGuides(db, written, lyrics, actor, t)
    ensures Kept(db, t, key)
  {
  }

  lemma OtherStepsKeepHistory(db: Db, op: Op, key: Key, t: Db)
    requires key in db.guides && GuideOk(db, key) && !op.OpEdit? && !op.OpDraft? && t == Step(db, op).0
    ensures Kept(db, t, key)
  {
  }

  /** No step takes a row of history away, and none removes a guide that has any. */
  lemma StepKeepsHistory(db: Db, op: Op, key: Key, t: Db)
    requires key in db.guides && GuideOk(db, key) && t == Step(db, op).0
    ensures Kept(db, t, key)
  {
    match op
    case OpEdit(song, actor, changes, slugAllowed, expected) =>
      EditOnlyPublishes(db, song, actor, changes, slugAllowed, expected, t);
      EditKeepsHistory(db, song, actor, changes, key, t);
    case OpDraft(written, id, version, lyrics, actor) =>
      DraftOnlyDrafts(db, written, id, version, lyrics, actor, t);
      DraftKeepsHistory(db, written, lyrics, actor, key, t);
    case _ => OtherStepsKeepHistory(db, op, key, t);
  }

  lemma ExtendsIsTransitive(a: Guide, b: Guide, c: Guide)
    requires Extends(a, b) && Extends(b, c)
    ensures Extends(a, c)
  {
  }

  /** Between any two points of a run, a guide with history stays, with every row it had. */
  lemma {:induction false} HistoryOnlyGrows(ops: seq<Op>, i: nat, key: Key)
    requires OpsOk(ops) && i <= |ops| && key in Run(ops[..i]).guides && Run(ops[..i]).guides[key].snapshots != []
    ensures key in Run(ops).guides && Extends(Run(ops[..i]).guides[key], Run(ops).guides[key])
  {
    if i == |ops| {
      assert ops[..i] == ops;
    } else {
      var before := ops[..|ops| - 1];
      assert before[..i] == ops[..i];
      HistoryOnlyGrows(before, i, key);
      RunKeepsInv(before);
      assert GuideOk(Run(before), key);
      StepKeepsHistory(Run(before), ops[|ops| - 1], key, Run(ops));
      ExtendsIsTransitive(Run(ops[..i]).guides[key], Run(before).guides[key], Run(ops).guides[key]);
    }
  }

  /** The version, the number of snapshots and the highest number are one count; publications are 1..n. */
  lemma HistoryIsDense(ops: seq<Op>, key: Key)
    requires OpsOk(ops) && key in Run(ops).guides
    ensures var g := Run(ops).guides[key];
            && MaxVersion(g.snapshots) == |g.snapshots| && MaxPublication(g.publications) == |g.publications|
            && (g.snapshots != [] ==> g.lockVersion == |g.snapshots|)
            && (forall k :: 0 <= k < |g.snapshots| ==> g.snapshots[k].versionNo == k + 1)
            && (forall k :: 0 <= k < |g.publications| ==> g.publications[k].publicationNo == k + 1)
  {
    RunKeepsInv(ops);
    assert GuideOk(Run(ops), key);
    VersionsCount(Run(ops).guides[key].snapshots);
    PublicationsCount(Run(ops).guides[key].publications);
  }

  // ---------------------------------------------------------------- concurrent writers

  /** The operation writes a snapshot to a guide, under the version its caller read. */
  predicate Writes(op: Op) { op.OpDraft? || (op.OpEdit? && op.changes.lyrics.Some?) }

  function VersionRead(op: Op): Option<Version>
    requires Writes(op)
  {
    if op.OpDraft? then Some(Version(op.id, op.version)) else op.expected
  }

  predicate Wrote(db: Db, op: Op, version: Version) {
    Writes(op) && VersionRead(op) == Some(version) && Step(db, op).1.Saved?
  }

  function KeyWritten(db: Db, op: Op): Key
    requires Writes(op) && Step(db, op).1.Saved? && VersionRead(op).Some?
  {
    if op.OpDraft? then op.key
    else Key(op.song, if LegacyMode(db, op.song).Some? then LegacyMode(db, op.song).value else Concert)
  }

  /** A write succeeds only at the version it read, and leaves the next one. */
  lemma WriteTakesItsVersion(db: Db, op: Op, version: Version)
    requires Wrote(db, op, version)
    ensures var key := KeyWritten(db, op);
            && key in db.guides && db.guides[key].id == version.guide && db.guides[key].lockVersion == version.lockVersion
            && key in Step(db, op).0.guides && Step(db, op).0.guides[key].id == version.guide
            && Step(db, op).0.guides[key].lockVersion == version.lockVersion + 1
            && Step(db, op).0.guides[key].snapshots != []
            && Step(db, op).1 == Saved(Some(Version(version.guide, version.lockVersion + 1)))
  {
  }

  /** Of the writers that read one version of a guide, at most one is accepted in the whole run. */
  lemma OneWriterPerVersion(ops: seq<Op>, i: nat, j: nat, version: Version)
    requires OpsOk(ops) && i < j < |ops|
    requires Wrote(Run(ops[..i]), ops[i], version)
    ensures !Wrote(Run(ops[..j]), ops[j], version)
  {
    var first, later := Run(ops[..i]), Run(ops[..j]);
    WriteTakesItsVersion(first, ops[i], version);
    var key := KeyWritten(first, ops[i]);
    assert ops[..i + 1][..i] == ops[..i] && ops[..j][..i + 1] == ops[..i + 1];
    HistoryOnlyGrows(ops[..j], i + 1, key);
    assert later.guides[key].id == version.guide && later.guides[key].lockVersion > version.lockVersion;
    RunKeepsInv(ops[..j]);
    if Wrote(later, ops[j], version) {
      WriteTakesItsVersion(later, ops[j], version);
      assert false;
    }
  }

  /** And one of them is accepted: a draft at the current version is always saved. */
  lemma TheCurrentVersionIsAccepted(db: Db, key: Key, version: nat, lyrics: Lyrics, actor: nat)
    requires Inv(db) && key in db.guides && db.guides[key].snapshots != []
    ensures SaveDraft(db, key, db.guides[key].id, version, lyrics, actor).1 ==
            if version == db.guides[key].lockVersion
            then Saved(Some(Version(db.guides[key].id, version + 1))) else Refused(Conflict)
  {
  }

  /** For the old editor as well: with nothing else in the way, the version alone decides. */
  lemma TheCurrentEditIsAccepted(db: Db, song: SongId, actor: nat, lyrics: Lyrics, youtubeId: string, expected: Option<Version>)
    requires Inv(db) && song in db.songs && LegacyMode(db, song).Some? && db.guides[LegacyKey(db, song)].working.None?
    requires HasText(lyrics) && db.songs[song].youtubeId == Some(youtubeId)
    ensures var g := db.guides[LegacyKey(db, song)];
            SaveLyrics(db, song, actor, lyrics, youtubeId, expected).1 ==
            if expected == Some(Version(g.id, g.lockVersion)) then Saved(Some(Version(g.id, g.lockVersion + 1))) else Refused(Conflict)
  {
    assert GuideOk(db, LegacyKey(db, song));
  }

  // ---------------------------------------------------------------- private changes

  lemma NoPublicationNoShow(db: Db, t: Db, song: SongId, youtubeId: string)
    requires song in db.songs && song in t.songs && t.songs[song] == db.songs[song]
    requires forall mode | mode in {Concert, Festival} ::
               ShownSnapshot(t, Key(song, mode), youtubeId) == ShownSnapshot(db, Key(song, mode), youtubeId)
    requires HasPublication(t, song) <==> HasPublication(db, song)
    ensures PublicCheering(t, song, youtubeId) == PublicCheering(db, song, youtubeId)
  {
    assert Concert in {Concert, Festival} && Festival in {Concert, Festival};
  }

  /** Only edits of the song and imports change its public page: drafts, new guides and deletions are private. */
  lemma DraftsArePrivate(db: Db, op: Op, song: SongId, youtubeId: string, t: Db)
    requires Inv(db) && song in db.songs && song in t.songs && !op.OpEdit? && !op.OpImport? && t == Step(db, op).0
    ensures PublicCheering(t, song, youtubeId) == PublicCheering(db, song, youtubeId)
  {
    forall mode | mode in {Concert, Festival}
      ensures ShownSnapshot(t, Key(song, mode), youtubeId) == ShownSnapshot(db, Key(song, mode), youtubeId)
      ensures (Key(song, mode) in t.guides && t.guides[Key(song, mode)].publications != [])
              <==> (Key(song, mode) in db.guides && db.guides[Key(song, mode)].publications != [])
    {
      if Key(song, mode) in db.guides { assert GuideOk(db, Key(song, mode)); }
      OneGuideStaysPrivate(db, op, Key(song, mode), youtubeId, t);
    }
    NoPublicationNoShow(db, t, song, youtubeId);
  }

  lemma OneGuideStaysPrivate(db: Db, op: Op, key: Key, youtubeId: string, t: Db)
    requires key in db.guides ==> Dense(db.guides[key])
    requires !op.OpEdit? && !op.OpImport? && t == Step(db, op).0
    ensures ShownSnapshot(t, key, youtubeId) == ShownSnapshot(db, key, youtubeId)
    ensures (key in t.guides && t.guides[key].publications != []) <==> (key in db.guides && db.guides[key].publications != [])
  {
  }

  // ---------------------------------------------------------------- import

  lemma ImportIsIdempotent(db: Db, entry: Entry, again: bool)
    requires ImportGuide(db, entry, true).1.Done?
    ensures ImportGuide(db, entry, false) == (db, Ready)
    ensures ImportGuide(ImportGuide(db, entry, true).0, entry, again) == (ImportGuide(db, entry, true).0, Unchanged)
  {
  }

  /** After any write to the guide, its entry is refused: import never takes an edit back. */
  lemma ImportNeverUndoesAnEdit(db: Db, entry: Entry, apply: bool)
    requires Inv(db) && Key(entry.song, entry.mode) in db.guides
    requires db.guides[Key(entry.song, entry.mode)].id == entry.guide ==>
               db.guides[Key(entry.song, entry.mode)].lockVersion > 1
    ensures ImportGuide(db, entry, apply) == (db, Refused(ImportConflict))
  {
  }

  // ---------------------------------------------------------------- the official flag

  /** The guide's source says "official" exactly when the song's own flag does. */
  predicate FlagAgrees(db: Db, song: SongId)
    requires song in db.songs && LegacyMode(db, song).Some?
  {
    var published := PublishedSnapshot(db.guides[LegacyKey(db, song)]);
    published.Some? && (published.value.origin.source.Official? <==> db.songs[song].official == Some(true))
  }

  /** The page's flag is the song's own one iff the two agree. */
  lemma PublicFlag(db: Db, song: SongId, youtubeId: string)
    requires Inv(db) && song in db.songs && LegacyMode(db, song).Some? && db.songs[song].youtubeId == Some(youtubeId)
    ensures PublicCheering(db, song, youtubeId).Shown?
    ensures PublicCheering(db, song, youtubeId).official == (db.songs[song].official == Some(true)) <==> FlagAgrees(db, song)
  {
    AtMostOneIsShown(db, song, youtubeId);
    var key, other := LegacyKey(db, song), Key(song, OtherMode(LegacyMode(db, song).value));
    ShownIsTheLegacyGuide(db, key, youtubeId);
    assert GuideOk(db, key);
    if other in db.guides {
      ShownIsTheLegacyGuide(db, other, youtubeId);
    }
    assert key == Key(song, Concert) || key == Key(song, Festival);
    assert HasPublication(db, song);
  }

  /** What the two flags depend on, in every state that follows. */
  predicate FlagKept(db: Db, song: SongId, t: Db)
    requires song in db.songs && LegacyMode(db, song).Some?
  {
    && song in t.songs && LegacyMode(t, song) == LegacyMode(db, song)
    && FlagAgrees(t, song) == FlagAgrees(db, song)
  }

  /** A song tied to a guide cannot change its flag. */
  lemma EditKeepsTheSongsFlag(db: Db, edited: SongId, actor: nat, changes: Changes, slugAllowed: bool, expected: Option<Version>, song: SongId, t: Db)
    requires song in db.songs && LegacyMode(db, song).Some?
    requires t == EditSong(db, edited, actor, changes, slugAllowed, expected).0
    ensures song in t.songs && (t.songs[song].official == Some(true) <==> db.songs[song].official == Some(true))
  {
  }

  /** The next snapshot is published with the origin of the one before. */
  lemma EditKeepsTheOrigin(db: Db, edited: SongId, actor: nat, changes: Changes, song: SongId, t: Db)
    requires song in db.songs && LegacyMode(db, song).Some? && EditedGuides(db, edited, actor, changes, t)
    ensures LegacyMode(t, song) == LegacyMode(db, song)
    ensures var before, after := PublishedSnapshot(db.guides[LegacyKey(db, song)]), PublishedSnapshot(t.guides[LegacyKey(db, song)]);
            before.Some? ==> after.Some? && after.value.origin == before.value.origin
  {
  }

  lemma EditKeepsFlag(db: Db, edited: SongId, actor: nat, changes: Changes, slugAllowed: bool, expected: Option<Version>, song: SongId, t: Db)
    requires song in db.songs && LegacyMode(db, song).Some? && GuideOk(db, LegacyKey(db, song))
    requires t == EditSong(db, edited, actor, changes, slugAllowed, expected).0
    ensures FlagKept(db, song, t)
  {
    EditOnlyPublishes(db, edited, actor, changes, slugAllowed, expected, t);
    EditKeepsTheSongsFlag(db, edited, actor, changes, slugAllowed, expected, song, t);
    EditKeepsTheOrigin(db, edited, actor, changes, song, t);
  }

  lemma DraftKeepsFlag(db: Db, written: Key, lyrics: Lyrics, actor: nat, song: SongId, t: Db)
    requires song in db.songs && LegacyMode(db, song).Some? && GuideOk(db, LegacyKey(db, song))
    requires DraftedGuides(db, written, lyrics, actor, t)
    ensures FlagKept(db, song, t)
  {
  }

  lemma OtherStepsKeepFlag(db: Db, op: Op, song: SongId, t: Db)
    requires song in db.songs && LegacyMode(db, song).Some? && GuideOk(db, LegacyKey(db, song))
    requires forall s | s in db.songs :: s < db.nextId
    requires !op.OpEdit? && !op.OpDraft? && t == Step(db, op).0
    ensures FlagKept(db, song, t)
  {
    var key := LegacyKey(db, song);
    assert key in t.guides && t.guides[key] == db.guides[key];
  }

  lemma StepKeepsFlag(db: Db, op: Op, song: SongId, t: Db)
    requires song in db.songs && LegacyMode(db, song).Some? && Inv(db) && t == Step(db, op).0
    ensures FlagKept(db, song, t)
  {
    assert GuideOk(db, LegacyKey(db, song));
    match op
    case OpEdit(edited, actor, changes, slugAllowed, expected) =>
      EditKeepsFlag(db, edited, actor, changes, slugAllowed, expected, song, t);
    case OpDraft(written, id, version, lyrics, actor) =>
      DraftOnlyDrafts(db, written, id, version, lyrics, actor, t);
      DraftKeepsFlag(db, written, lyrics, actor, song, t);
    case _ => OtherStepsKeepFlag(db, op, song, t);
  }

  /** The flags agree in every later state iff they agreed at the import; no operation repairs or breaks it. */
  lemma {:induction false} FlagIsDecidedAtImport(ops: seq<Op>, i: nat, song: SongId)
    requires OpsOk(ops) && i <= |ops| && song in Run(ops[..i]).songs && LegacyMode(Run(ops[..i]), song).Some?
    ensures FlagKept(Run(ops[..i]), song, Run(ops))
  {
    if i == |ops| {
      assert ops[..i] == ops;
    } else {
      var before := ops[..|ops| - 1];
      assert before[..i] == ops[..i];
      FlagIsDecidedAtImport(before, i, song);
      RunKeepsInv(before);
      StepKeepsFlag(Run(before), ops[|ops| - 1], song, Run(ops));
    }
  }

  lemma ImportDecidesTheFlag(db: Db, entry: Entry)
    requires ImportGuide(db, entry, true).1.Done?
    ensures var t := ImportGuide(db, entry, true).0;
            && LegacyMode(t, entry.song) == Some(entry.mode)
            && (FlagAgrees(t, entry.song) <==> (entry.origin.source.Official? <==> db.songs[entry.song].official == Some(true)))
  {
  }

  /** The page says "official" before the import and not after it. */
  ghost predicate Flips(db: Db, entry: Entry, youtubeId: string) {
    && ImportGuide(db, entry, true).1.Done? && entry.song in db.songs && entry.song in ImportGuide(db, entry, true).0.songs
    && (exists lyrics :: PublicCheering(db, entry.song, youtubeId) == Shown(lyrics, true))
    && (exists lyrics :: PublicCheering(ImportGuide(db, entry, true).0, entry.song, youtubeId) == Shown(lyrics, false))
  }

  lemma FandomImportFlips(db: Db, entry: Entry, youtubeId: string, lyrics: Lyrics)
    requires Inv(db) && ImportGuide(db, entry, true).1.Done? && OriginOk(entry.origin) && entry.origin.source.Fandom?
    requires db.guides == map[] && db.songs[entry.song] == Song(Document(lyrics), Some(youtubeId), Some(true))
    ensures Flips(db, entry, youtubeId)
  {
    var t := ImportGuide(db, entry, true).0;
    assert PublicCheering(db, entry.song, youtubeId) == Shown(lyrics, true);
    ImportKeepsInv(db, entry, true, t);
    ImportDecidesTheFlag(db, entry);
    PublicFlag(t, entry.song, youtubeId);
    assert PublicCheering(t, entry.song, youtubeId) == Shown(PublicCheering(t, entry.song, youtubeId).lyrics, false);
  }

  /** Import accepts a source that contradicts the song's flag, and the page then changes its answer. */
  lemma ImportMayFlipTheOfficialFlag()
    ensures exists db: Db, entry: Entry, youtubeId: string :: Inv(db) && OriginOk(entry.origin) && Flips(db, entry, youtubeId)
  {
    var lyrics := [Line(0, [Segment("a")])];
    assert !Blank(lyrics[0].segments[0].text) by { assert !IsSpace("a"[0]); }
    assert HasText(lyrics) by { assert lyrics[0] in lyrics && lyrics[0].segments[0] in lyrics[0].segments; }
    var row := Song(Document(lyrics), Some("v"), Some(true));
    var db := Db(map[0 := row], map[], 1);
    var entry := Entry(0, 1, Concert, "v", FingerprintOf(row), Origin(Fandom, None, None, None));
    FandomImportFlips(db, entry, "v", lyrics);
  }
}
