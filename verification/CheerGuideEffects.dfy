/**
 * What an accepted write leaves behind: the submitted text in the song, in the guide's newest snapshot and on
 * the public page. CheerGuideHistory says what no write can do.
 */
module CheerGuideEffects {
  import opened Wrappers
  import opened CheerGuide
  import H = CheerGuideHistory

  function Newest(g: Guide): Snapshot
    requires g.snapshots != []
  {
    g.snapshots[|g.snapshots| - 1]
  }

  /** `after` is `before` with one more snapshot: this text, by this author, under the guide's next version. */
  predicate GainsSnapshot(before: Guide, after: Guide, lyrics: Lyrics, actor: nat) {
    && after.snapshots != [] && after.snapshots[..|after.snapshots| - 1] == before.snapshots
    && Newest(after).lyrics == Document(lyrics) && Newest(after).author == Some(actor)
    && Newest(after).versionNo == after.lockVersion == before.lockVersion + 1 && after.id == before.id
  }

  predicate OtherGuidesKept(db: Db, t: Db, key: Key) {
    t.guides.Keys - {key} == db.guides.Keys - {key} && forall k | k in db.guides && k != key :: k in t.guides && t.guides[k] == db.guides[k]
  }

  // ---------------------------------------------------------------- edits

  lemma WrittenGuideGains(g: Guide, lyrics: Lyrics, current: Snapshot, actor: nat)
    requires Dense(g) && g.snapshots != []
    ensures var h := PublishNext(g, lyrics, current, actor);
            && GainsSnapshot(g, h, lyrics, actor) && PublishedSnapshot(h) == Some(Newest(h))
            && Newest(h).reference == current.reference && Newest(h).origin == current.origin && h.working == g.working
  {
    H.VersionsCount(g.snapshots);
    H.PublicationsCount(g.publications);
  }

  /** An accepted text is the song's, the newest snapshot's under the answered version, and what is published. */
  lemma TextsAreWritten(db: Db, song: SongId, actor: nat, changes: Changes, slugAllowed: bool, expected: Option<Version>)
    requires Inv(db) && changes.lyrics.Some? && EditSong(db, song, actor, changes, slugAllowed, expected).1.Saved?
    ensures var (t, r) := EditSong(db, song, actor, changes, slugAllowed, expected);
            match LegacyMode(db, song)
            case None => r == Saved(None) && t.guides == db.guides
            case Some(mode) =>
              var key := Key(song, mode);
              && key in t.guides && OtherGuidesKept(db, t, key) && GainsSnapshot(db.guides[key], t.guides[key], changes.lyrics.value, actor)
              && PublishedSnapshot(t.guides[key]) == Some(Newest(t.guides[key]))
              && Newest(t.guides[key]).reference == changes.youtubeId
              && PublishedSnapshot(db.guides[key]).Some?
              && Newest(t.guides[key]).origin == PublishedSnapshot(db.guides[key]).value.origin
              && r == Saved(Some(Version(t.guides[key].id, t.guides[key].lockVersion)))
  {
    var mode := LegacyMode(db, song);
    if mode.Some? {
      var g := db.guides[Key(song, mode.value)];
      assert GuideOk(db, Key(song, mode.value));
      WrittenGuideGains(g, changes.lyrics.value, PublishedSnapshot(g).value, actor);
    }
  }

  /** The song's row after an accepted edit: the submitted columns, and the old ones where nothing was submitted. */
  lemma EditsReachTheSong(db: Db, song: SongId, actor: nat, changes: Changes, slugAllowed: bool, expected: Option<Version>)
    requires EditSong(db, song, actor, changes, slugAllowed, expected).1.Saved?
    ensures var t := EditSong(db, song, actor, changes, slugAllowed, expected).0;
            && song in db.songs && t.songs.Keys == db.songs.Keys && (forall s | s in db.songs && s != song :: t.songs[s] == db.songs[s])
            && t.songs[song].youtubeId == Some(changes.youtubeId)
            && t.songs[song].lyrics == (if changes.lyrics.Some? then Document(changes.lyrics.value) else db.songs[song].lyrics)
            && t.songs[song].official == (if changes.official.Some? then changes.official else db.songs[song].official)
            && (changes.lyrics.None? ==> t.guides == db.guides)
  {
  }

  /** Whoever opens the song's page after an accepted text reads exactly that text. */
  lemma EditsArePublished(db: Db, song: SongId, actor: nat, changes: Changes, slugAllowed: bool, expected: Option<Version>)
    requires Inv(db) && changes.lyrics.Some? && EditSong(db, song, actor, changes, slugAllowed, expected).1.Saved?
    ensures var t := EditSong(db, song, actor, changes, slugAllowed, expected).0;
            && song in t.songs && t.songs[song].lyrics == Document(changes.lyrics.value)
            && PublicCheering(t, song, changes.youtubeId).Shown?
            && PublicCheering(t, song, changes.youtubeId).lyrics == changes.lyrics.value
  {
    var t := EditSong(db, song, actor, changes, slugAllowed, expected).0;
    H.EditKeepsInv(db, song, actor, changes, slugAllowed, expected, t);
    EditsReachTheSong(db, song, actor, changes, slugAllowed, expected);
    H.AtMostOneIsShown(t, song, changes.youtubeId);
  }

  /** The same for the lyrics editor, which changes nothing else of the song. */
  lemma SavedLyricsArePublished(db: Db, song: SongId, actor: nat, lyrics: Lyrics, youtubeId: string, expected: Option<Version>)
    requires Inv(db) && SaveLyrics(db, song, actor, lyrics, youtubeId, expected).1.Saved?
    ensures var t := SaveLyrics(db, song, actor, lyrics, youtubeId, expected).0;
            && song in db.songs && t.songs == db.songs[song := Song(Document(lyrics), Some(youtubeId), db.songs[song].official)]
            && PublicCheering(t, song, youtubeId).Shown? && PublicCheering(t, song, youtubeId).lyrics == lyrics
  {
    EditsReachTheSong(db, song, actor, Changes(Some(lyrics), youtubeId, None), true, expected);
    EditsArePublished(db, song, actor, Changes(Some(lyrics), youtubeId, None), true, expected);
  }

  /** A song without an import target takes any edit that names no version and that the slug policy allows. */
  lemma PlainEditsAreAccepted(db: Db, song: SongId, actor: nat, changes: Changes, slugAllowed: bool, expected: Option<Version>)
    requires song in db.songs && LegacyMode(db, song).None?
    ensures EditSong(db, song, actor, changes, slugAllowed, expected).1.Saved? <==> expected.None? && slugAllowed
  {
  }

  /** The edit says of the song what is so, and a text comes with nothing pending, some content and the current version. */
  predicate MayWrite(song: Song, g: Guide, changes: Changes, expected: Option<Version>) {
    && song.youtubeId == Some(changes.youtubeId)
    && (changes.official.Some? ==> (changes.official.value <==> song.official == Some(true)))
    && (changes.lyrics.Some? ==> g.working.None? && HasText(changes.lyrics.value) && expected == Some(Version(g.id, g.lockVersion)))
  }

  /** A song with an import target takes exactly those. */
  lemma EditsOfGuidesAreDecided(db: Db, song: SongId, actor: nat, changes: Changes, slugAllowed: bool, expected: Option<Version>)
    requires Inv(db) && song in db.songs && LegacyMode(db, song).Some?
    ensures var r := EditSong(db, song, actor, changes, slugAllowed, expected);
            && (r.1.Saved? <==> slugAllowed && MayWrite(db.songs[song], db.guides[LegacyKey(db, song)], changes, expected))
            && (!r.1.Saved? ==> r.1.Refused? && r.0 == db)
  {
    assert GuideOk(db, LegacyKey(db, song));
  }

  // ---------------------------------------------------------------- the new editor

  /** The working copy, and without one the published text, is the newest snapshot. */
  predicate NewestLeads(g: Guide) {
    && (g.working.Some? ==> g.working.value == |g.snapshots| - 1)
    && (g.working.None? && g.current.Some? && g.current.value < |g.publications| ==>
          g.publications[g.current.value].snapshot == |g.snapshots| - 1)
  }

  lemma WritesLead(g: Guide, lyrics: Lyrics, base: Snapshot, actor: nat)
    ensures NewestLeads(Drafted(g, lyrics, base, actor))
    ensures g.working.None? ==> NewestLeads(PublishNext(g, lyrics, base, actor))
  {
  }

  lemma EditKeepsNewest(db: Db, song: SongId, actor: nat, changes: Changes, slugAllowed: bool, expected: Option<Version>, key: Key, t: Db)
    requires Inv(db) && t == EditSong(db, song, actor, changes, slugAllowed, expected).0
    requires key in t.guides && (key in db.guides ==> NewestLeads(db.guides[key]))
    ensures NewestLeads(t.guides[key])
  {
    H.EditOnlyPublishes(db, song, actor, changes, slugAllowed, expected, t);
    if t.guides != db.guides {
      EditsOfGuidesAreDecided(db, song, actor, changes, slugAllowed, expected);
      var g := db.guides[LegacyKey(db, song)];
      WritesLead(g, changes.lyrics.value, PublishedSnapshot(g).value, actor);
    }
  }

  lemma DraftKeepsNewest(db: Db, written: Key, id: GuideId, version: nat, lyrics: Lyrics, actor: nat, key: Key, t: Db)
    requires t == SaveDraft(db, written, id, version, lyrics, actor).0
    requires key in t.guides && (key in db.guides ==> NewestLeads(db.guides[key]))
    ensures NewestLeads(t.guides[key])
  {
    H.DraftOnlyDrafts(db, written, id, version, lyrics, actor, t);
    if t != db { WritesLead(db.guides[written], lyrics, EditorSnapshot(db.guides[written]).value, actor); }
  }

  lemma OtherStepsKeepNewest(db: Db, op: Op, key: Key, t: Db)
    requires !op.OpEdit? && !op.OpDraft? && t == Step(db, op).0
    requires key in t.guides && (key in db.guides ==> NewestLeads(db.guides[key]))
    ensures NewestLeads(t.guides[key])
  {
  }

  lemma StepKeepsNewest(db: Db, op: Op, key: Key, t: Db)
    requires Inv(db) && t == Step(db, op).0 && key in t.guides && (key in db.guides ==> NewestLeads(db.guides[key]))
    ensures NewestLeads(t.guides[key])
  {
    match op
    case OpEdit(song, actor, changes, slugAllowed, expected) => EditKeepsNewest(db, song, actor, changes, slugAllowed, expected, key, t);
    case OpDraft(written, id, version, lyrics, actor) => DraftKeepsNewest(db, written, id, version, lyrics, actor, key, t);
    case _ => OtherStepsKeepNewest(db, op, key, t);
  }

  lemma {:induction false} NewestAlwaysLeads(ops: seq<Op>, key: Key)
    requires H.OpsOk(ops) && key in Run(ops).guides
    ensures NewestLeads(Run(ops).guides[key])
  {
    if ops != [] {
      var front := ops[..|ops| - 1];
      H.RunKeepsInv(front);
      if key in Run(front).guides { NewestAlwaysLeads(front, key); }
      StepKeepsNewest(Run(front), ops[|ops| - 1], key, Run(ops));
    }
  }

  lemma LeadersAreOpened(g: Guide)
    requires Dense(g) && NewestLeads(g) && g.snapshots != []
    ensures EditorSnapshot(g) == Some(Newest(g))
  {
  }

  /** In every run the editor opens the newest snapshot, so no save is ever based on an older text. */
  lemma TheEditorOpensTheNewest(ops: seq<Op>, key: Key)
    requires H.OpsOk(ops) && key in Run(ops).guides && Run(ops).guides[key].snapshots != []
    ensures EditorSnapshot(Run(ops).guides[key]) == Some(Newest(Run(ops).guides[key]))
  {
    H.RunKeepsInv(ops);
    assert GuideOk(Run(ops), key);
    NewestAlwaysLeads(ops, key);
    LeadersAreOpened(Run(ops).guides[key]);
  }

  /** A saved draft is the newest snapshot and the working copy, on the editor's record; what is published stays. */
  lemma DraftsAreStored(db: Db, key: Key, id: GuideId, version: nat, lyrics: Lyrics, actor: nat)
    requires Inv(db) && SaveDraft(db, key, id, version, lyrics, actor).1.Saved?
    ensures var (t, r) := SaveDraft(db, key, id, version, lyrics, actor);
            && key in db.guides && t.songs == db.songs && OtherGuidesKept(db, t, key) && key in t.guides
            && GainsSnapshot(db.guides[key], t.guides[key], lyrics, actor)
            && EditorSnapshot(t.guides[key]) == Some(Newest(t.guides[key]))
            && EditorSnapshot(db.guides[key]).Some?
            && Newest(t.guides[key]).reference == EditorSnapshot(db.guides[key]).value.reference
            && Newest(t.guides[key]).origin == EditorSnapshot(db.guides[key]).value.origin
            && t.guides[key].publications == db.guides[key].publications && t.guides[key].current == db.guides[key].current
            && r == Saved(Some(Version(id, t.guides[key].lockVersion)))
  {
    assert GuideOk(db, key);
    H.VersionsCount(db.guides[key].snapshots);
  }

  /** A new guide holds the song's text for the song's video, as the editor's copy, and nothing is published. */
  lemma CreatedGuidesHoldTheSong(db: Db, song: SongId, mode: Mode, origin: Origin, actor: nat)
    requires Inv(db)
    ensures var (t, r) := CreateGuide(db, song, mode, origin, actor);
            && (r.Created? <==>
                  && song in db.songs && Key(song, mode) !in db.guides && !db.songs[song].lyrics.Malformed?
                  && db.songs[song].youtubeId.Some? && !Blank(db.songs[song].youtubeId.value))
            && (!r.Created? ==> t == db)
            && (r.Created? ==>
                  && Key(song, mode) in t.guides && OtherGuidesKept(db, t, Key(song, mode)) && t.songs == db.songs
                  && var g := t.guides[Key(song, mode)];
                     && g.id == r.id && g.lockVersion == 1 && |g.snapshots| == 1 && PublishedSnapshot(g).None?
                     && EditorSnapshot(g) == Some(g.snapshots[0])
                     && Some(g.snapshots[0].reference) == db.songs[song].youtubeId
                     && g.snapshots[0].origin == origin && g.snapshots[0].author == Some(actor) && g.snapshots[0].lyrics.Document?
                     && Some(g.snapshots[0].lyrics.lyrics) == Parse(db.songs[song].lyrics))
  {
  }

  // ---------------------------------------------------------------- imports

  /** The entry tells the song as it is, for a free place and a free identity. */
  predicate FreshEntry(db: Db, entry: Entry) {
    && entry.song in db.songs && HasContent(db.songs[entry.song].lyrics)
    && db.songs[entry.song].youtubeId == Some(entry.reference) && FingerprintOf(db.songs[entry.song]) == entry.fingerprint
    && Key(entry.song, entry.mode) !in db.guides && LegacyMode(db, entry.song).None? && !IdTaken(db, entry.guide)
  }

  /** Exactly such entries are imported. */
  lemma FreshEntriesAreImported(db: Db, entry: Entry)
    requires Inv(db)
    ensures ImportGuide(db, entry, true).1.Done? <==> FreshEntry(db, entry)
  {
    var other := Key(entry.song, OtherMode(entry.mode));
    if other in db.guides && db.guides[other].id == entry.guide { assert IdTaken(db, entry.guide); }
  }

  /** And then the page shows the song's text under the entry's origin. */
  lemma ImportsArePublished(db: Db, entry: Entry)
    requires Inv(db) && OriginOk(entry.origin) && ImportGuide(db, entry, true).1.Done?
    ensures var t := ImportGuide(db, entry, true).0;
            && t.songs == db.songs && entry.song in t.songs && OtherGuidesKept(db, t, Key(entry.song, entry.mode))
            && LegacyMode(t, entry.song) == Some(entry.mode) && t.guides[Key(entry.song, entry.mode)].id == entry.guide
            && t.songs[entry.song].lyrics.Document?
            && PublicCheering(t, entry.song, entry.reference)
               == Shown(t.songs[entry.song].lyrics.lyrics, entry.origin.source.Official?)
  {
    var t := ImportGuide(db, entry, true).0;
    H.ImportKeepsInv(db, entry, true, t);
    var key, other := Key(entry.song, entry.mode), Key(entry.song, OtherMode(entry.mode));
    H.AtMostOneIsShown(t, entry.song, entry.reference);
    assert t.guides[key] == ImportedGuide(entry, db.songs[entry.song].lyrics);
    assert GuideOk(t, key);
  }

  /** Only a guide nobody wrote to can be deleted, and then it is gone. */
  lemma EmptyGuidesAreDeleted(db: Db, key: Key, id: GuideId)
    requires Inv(db)
    ensures var (t, r) := DeleteEmpty(db, key, id);
            && (r.Done? <==> key in db.guides && db.guides[key].id == id && db.guides[key].snapshots == [])
            && (r.Done? ==> t == db.(guides := db.guides - {key}) && key !in t.guides) && (!r.Done? ==> t == db)
  {
    if key in db.guides { assert GuideOk(db, key); }
  }
}
