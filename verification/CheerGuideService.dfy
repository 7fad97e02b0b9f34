/**
 * The services as they run: each reads and writes the tables step by step inside one transaction, and
 * leaves exactly the state and the reply its specification in CheerGuide gives.
 */
module CheerGuideService {
  import opened Wrappers
  import opened CheerGuide

  class Store {
    var songs: map<SongId, Song>
    var guides: map<Key, Guide>
    var nextId: nat

    constructor ()
      ensures State() == EMPTY_DB
    {
      songs, guides, nextId := map[], map[], 0;
    }

    function State(): Db
      reads this
    {
      Db(songs, guides, nextId)
    }

    method LockLegacyGuide(song: SongId) returns (key: Option<Key>)
      ensures key == match LegacyMode(State(), song) case Some(mode) => Some(Key(song, mode)) case None => None
    {
      var mode := LegacyMode(State(), song);
      return if mode.Some? then Some(Key(song, mode.value)) else None;
    }

    /** The compare-and-set every writer goes through. */
    method ClaimGuideVersion(key: Key, expected: nat) returns (claimed: Option<nat>)
      requires key in guides
      modifies this`guides
      ensures if old(guides[key]).lockVersion == expected
              then claimed == Some(expected + 1) && guides == old(guides)[key := old(guides[key]).(lockVersion := expected + 1)]
              else claimed.None? && guides == old(guides)
    {
      if guides[key].lockVersion != expected {
        return None;
      }
      guides := guides[key := guides[key].(lockVersion := expected + 1)];
      return Some(expected + 1);
    }

    method InsertNextGuideSnapshot(key: Key, lyrics: Stored, reference: string, origin: Origin, author: Option<nat>) returns (snapshot: nat)
      requires key in guides
      modifies this`guides
      ensures guides == old(guides)[key := AddSnapshot(old(guides[key]), lyrics, reference, origin, author)]
      ensures snapshot == |guides[key].snapshots| - 1
    {
      var versionNo := MaxVersion(guides[key].snapshots) + 1;
      var row := Snapshot(versionNo, lyrics, reference, origin, author);
      guides := guides[key := guides[key].(snapshots := guides[key].snapshots + [row])];
      snapshot := |guides[key].snapshots| - 1;
    }

    method InsertNextGuidePublication(key: Key, action: Action, snapshot: nat) returns (publication: nat)
      requires key in guides
      modifies this`guides
      ensures guides == old(guides)[key := AddPublication(old(guides[key]), action, snapshot)]
      ensures publication == |guides[key].publications| - 1
    {
      var publicationNo := MaxPublication(guides[key].publications) + 1;
      guides := guides[key := guides[key].(publications := guides[key].publications + [Publication(publicationNo, action, snapshot)])];
      publication := |guides[key].publications| - 1;
    }

    /** The caller holds the song, as `row`. Every refusal comes before the first write. */
    method WriteLegacyGuide(song: SongId, actor: nat, changes: Changes, expected: Option<Version>) returns (reply: Reply)
      requires song in songs
      modifies this`guides
      ensures (State(), reply) == WriteLegacy(old(State()), song, actor, changes, expected)
    {
      var row := songs[song];
      var found := LockLegacyGuide(song);
      if found.None? {
        if expected.Some? {
          return Refused(Conflict);
        }
        return Saved(None);
      }
      var key := found.value;
      var guide := guides[key];
      if Some(changes.youtubeId) != row.youtubeId
         || (changes.official.Some? && changes.official.value != (row.official == Some(true))) {
        return Refused(ChangeRestricted);
      }
      if changes.lyrics.None? {
        return Saved(Some(Version(guide.id, guide.lockVersion)));
      }
      if guide.working.Some? {
        return Refused(DraftPending);
      }
      if expected.None? || expected.value.guide != guide.id || expected.value.lockVersion != guide.lockVersion {
        return Refused(Conflict);
      }
      var current := PublishedSnapshot(guide);
      if current.None? || current.value.reference != changes.youtubeId {
        return Refused(ChangeRestricted);
      }
      if !HasText(changes.lyrics.value) {
        return Refused(ContentInvalid);
      }
      var claimed := ClaimGuideVersion(key, expected.value.lockVersion);
      if claimed.None? {
        return Refused(Conflict);
      }
      var snapshot := InsertNextGuideSnapshot(key, Document(changes.lyrics.value), current.value.reference, current.value.origin, Some(actor));
      var publication := InsertNextGuidePublication(key, Publish, snapshot);
      guides := guides[key := guides[key].(current := Some(publication))];
      assert guides == old(guides)[key := PublishNext(guide, changes.lyrics.value, current.value, actor)];
      return Saved(Some(Version(guide.id, claimed.value)));
    }

    /** The guide is written first; when the slug policy then refuses, the transaction takes that write back. */
    method EditSong(song: SongId, actor: nat, changes: Changes, slugAllowed: bool, expected: Option<Version>) returns (reply: Reply)
      modifies this
      ensures (State(), reply) == CheerGuide.EditSong(old(State()), song, actor, changes, slugAllowed, expected)
    {
      if song !in songs {
        return Refused(SongNotFound);
      }
      var before := guides;
      reply := WriteLegacyGuide(song, actor, changes, expected);
      if reply.Refused? {
        return;
      }
      if !slugAllowed {
        guides := before;
        return Refused(SlugImmutable);
      }
      var row := songs[song].(youtubeId := Some(changes.youtubeId));
      if changes.lyrics.Some? {
        row := row.(lyrics := Document(changes.lyrics.value));
      }
      if changes.official.Some? {
        row := row.(official := changes.official);
      }
      songs := songs[song := row];
    }

    method SaveSongLyrics(song: SongId, actor: nat, lyrics: Lyrics, youtubeId: string, expected: Option<Version>) returns (reply: Reply)
      modifies this
      ensures (State(), reply) == SaveLyrics(old(State()), song, actor, lyrics, youtubeId, expected)
    {
      if song !in songs {
        return Refused(SongNotFound);
      }
      reply := WriteLegacyGuide(song, actor, Changes(Some(lyrics), youtubeId, None), expected);
      if reply.Refused? {
        return;
      }
      songs := songs[song := songs[song].(lyrics := Document(lyrics), youtubeId := Some(youtubeId))];
    }

    method ImportLegacyGuide(entry: Entry, apply: bool) returns (reply: Reply)
      modifies this
      ensures (State(), reply) == ImportGuide(old(State()), entry, apply)
    {
      if entry.song !in songs {
        return Refused(ImportConflict);
      }
      var row := songs[entry.song];
      if !HasContent(row.lyrics) || row.youtubeId != Some(entry.reference) || FingerprintOf(row) != entry.fingerprint {
        return Refused(ImportConflict);
      }
      var key, other := Key(entry.song, entry.mode), Key(entry.song, OtherMode(entry.mode));
      var otherLegacy := other in guides && guides[other].legacyTarget;
      if key in guides && guides[key].id == entry.guide {
        if guides[key].(working := None) != ImportedGuide(entry, row.lyrics) || otherLegacy {
          return Refused(ImportConflict);
        }
        return Unchanged;
      }
      if (other in guides && guides[other].id == entry.guide) || key in guides || otherLegacy {
        return Refused(ImportConflict);
      }
      if !apply {
        return Ready;
      }
      if IdTaken(State(), entry.guide) {
        return Refused(IdentityTaken);
      }
      var snapshot := Snapshot(1, row.lyrics, entry.reference, entry.origin, None);
      guides := guides[key := Guide(entry.guide, true, Some(0), None, 1, [snapshot], [Publication(1, Publish, 0)])];
      if entry.guide >= nextId {
        nextId := entry.guide + 1;
      }
      return CheerGuide.Done;
    }

    method CreateAdminCheerGuide(song: SongId, mode: Mode, origin: Origin, actor: nat) returns (reply: Reply)
      modifies this
      ensures (State(), reply) == CreateGuide(old(State()), song, mode, origin, actor)
    {
      if song !in songs {
        return Refused(SongNotFound);
      }
      var lyrics := Parse(songs[song].lyrics);
      if lyrics.None? {
        return Refused(LyricsInvalid);
      }
      if songs[song].youtubeId.None? || Blank(songs[song].youtubeId.value) {
        return Refused(SourceInvalid);
      }
      var key := Key(song, mode);
      if key in guides {
        return Refused(AlreadyExists);
      }
      var id := nextId;
      guides, nextId := guides[key := Guide(id, false, None, None, 1, [], [])], nextId + 1;
      var snapshot := InsertNextGuideSnapshot(key, Document(lyrics.value), songs[song].youtubeId.value, origin, Some(actor));
      guides := guides[key := guides[key].(working := Some(snapshot))];
      assert guides == old(guides)[key := guides[key]];
      return Created(id);
    }

    method SaveAdminCheerGuideDraft(key: Key, id: GuideId, expected: nat, lyrics: Lyrics, actor: nat) returns (reply: Reply)
      modifies this`guides
      ensures (State(), reply) == SaveDraft(old(State()), key, id, expected, lyrics, actor)
    {
      if key !in guides || guides[key].id != id {
        return Refused(GuideNotFound);
      }
      if key.song !in songs {
        return Refused(SongNotFound);
      }
      var row := EditorSnapshot(guides[key]);
      if row.None? {
        return Refused(GuideNotFound);
      }
      var claimed := ClaimGuideVersion(key, expected);
      if claimed.None? {
        return Refused(Conflict);
      }
      var snapshot := InsertNextGuideSnapshot(key, Document(lyrics), row.value.reference, row.value.origin, Some(actor));
      guides := guides[key := guides[key].(working := Some(snapshot))];
      assert guides == old(guides)[key := Drafted(old(guides[key]), lyrics, row.value, actor)];
      return Saved(Some(Version(id, claimed.value)));
    }

    method DeleteEmptyCheerGuide(key: Key, id: GuideId) returns (reply: Reply)
      modifies this`guides
      ensures (State(), reply) == DeleteEmpty(old(State()), key, id)
    {
      if key in guides && guides[key].id == id && guides[key].snapshots == [] && guides[key].publications == [] {
        guides := guides - {key};
        return CheerGuide.Done;
      }
      if key in guides && guides[key].id == id {
        return Refused(HasHistory);
      }
      return Refused(GuideNotFound);
    }
  }
}
