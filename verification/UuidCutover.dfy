/**
 * The map from numeric identities to UUIDs. Reading a source sorts its rows and fingerprints the result;
 * a map is valid for a source when it renames every row once, to identities used nowhere else, keeps every
 * song on its album's new identity and every account's facts.
 */
module UuidCutover {
  import opened Wrappers

  type OldId = string    // decimal digits
  type Uuid = string

  datatype Role = User | Reviewer | Admin
  datatype Status = PendingVerification | Active | Suspended | Deleted

  datatype Facts = Facts(role: Role, status: Status, mfaVersion: Option<nat>)

  datatype Album = Album(id: OldId)
  datatype Song = Song(id: OldId, albumId: OldId)
  datatype Account = Account(id: OldId, facts: Facts)

  datatype Source = Source(albums: seq<Album>, songs: seq<Song>, accounts: seq<Account>)

  datatype AlbumRow = AlbumRow(oldId: OldId, id: Uuid)
  datatype SongRow = SongRow(oldId: OldId, id: Uuid, albumId: Uuid)
  datatype AccountRow = AccountRow(oldId: OldId, id: Uuid, facts: Facts)

  /** The digest of the sorted rows; it is injective, so it is modelled as the rows. */
  type Fingerprint = Source

  datatype Mapping = Mapping(fingerprint: Fingerprint, albums: seq<AlbumRow>, songs: seq<SongRow>, accounts: seq<AccountRow>,
                             resetAdmins: seq<OldId>)

  // ---------------------------------------------------------------- sorting by identity

  /** Identities compare as strings, character by character: "10" comes before "9". */
  predicate Less(a: string, b: string) {
    b != [] && (a == [] || a[0] < b[0] || (a[0] == b[0] && Less(a[1..], b[1..])))
  }

  lemma {:induction false} LessIsTotal(a: string, b: string)
    ensures Less(a, b) || a == b || Less(b, a)
  {
    if a != [] && b != [] && a[0] == b[0] {
      LessIsTotal(a[1..], b[1..]);
      assert a == [a[0]] + a[1..] && b == [b[0]] + b[1..];
    }
  }

  lemma {:induction false} LessIsStrict(a: string, b: string)
    requires Less(a, b)
    ensures a != b && !Less(b, a)
  {
    if a != [] && a[0] == b[0] {
      LessIsStrict(a[1..], b[1..]);
    }
  }

  lemma {:induction false} LessIsTransitive(a: string, b: string, c: string)
    requires Less(a, b) && Less(b, c)
    ensures Less(a, c)
  {
    if a != [] && a[0] == b[0] == c[0] {
      LessIsTransitive(a[1..], b[1..], c[1..]);
    }
  }

  function Insert<T>(x: T, rows: seq<T>, key: T -> OldId): seq<T> {
    if rows == [] || !Less(key(rows[0]), key(x)) then [x] + rows else [rows[0]] + Insert(x, rows[1..], key)
  }

  function Sort<T>(rows: seq<T>, key: T -> OldId): seq<T> {
    if rows == [] then [] else Insert(rows[0], Sort(rows[1..], key), key)
  }

  predicate Sorted<T>(rows: seq<T>, key: T -> OldId) {
    forall i, j :: 0 <= i < j < |rows| ==> !Less(key(rows[j]), key(rows[i]))
  }

  predicate DistinctKeys<T>(rows: seq<T>, key: T -> OldId) {
    forall i, j :: 0 <= i < j < |rows| ==> key(rows[i]) != key(rows[j])
  }

  lemma {:induction false} InsertPermutes<T>(x: T, rows: seq<T>, key: T -> OldId)
    ensures multiset(Insert(x, rows, key)) == multiset(rows) + multiset{x}
  {
    if rows != [] && Less(key(rows[0]), key(x)) {
      InsertPermutes(x, rows[1..], key);
      assert rows == [rows[0]] + rows[1..];
    } else {
      assert Insert(x, rows, key) == [x] + rows;
    }
  }

  lemma {:induction false} SortPermutes<T>(rows: seq<T>, key: T -> OldId)
    ensures multiset(Sort(rows, key)) == multiset(rows)
  {
    if rows != [] {
      SortPermutes(rows[1..], key);
      InsertPermutes(rows[0], Sort(rows[1..], key), key);
      assert rows == [rows[0]] + rows[1..];
    }
  }

  lemma {:induction false} InsertSorts<T>(x: T, rows: seq<T>, key: T -> OldId)
    requires Sorted(rows, key)
    ensures Sorted(Insert(x, rows, key), key)
  {
    var all := Insert(x, rows, key);
    if rows != [] && Less(key(rows[0]), key(x)) {
      InsertSorts(x, rows[1..], key);
      InsertPermutes(x, rows[1..], key);
      forall j | 0 < j < |all|
        ensures !Less(key(all[j]), key(all[0]))
      {
        assert all[j] in multiset(Insert(x, rows[1..], key));
        if all[j] == x {
          LessIsStrict(key(rows[0]), key(x));
        } else {
          assert all[j] in rows[1..];
        }
      }
    } else {
      forall j | 0 < j < |all|
        ensures !Less(key(all[j]), key(x))
      {
        assert all[j] == rows[j - 1];
        if Less(key(rows[j - 1]), key(x)) {
          LessIsTotal(key(rows[0]), key(x));
          NotLessChains(key(rows[j - 1]), key(x), key(rows[0]));
        }
      }
    }
  }

  lemma NotLessChains(c: string, x: string, first: string)
    requires Less(c, x) && !Less(first, x)
    ensures Less(c, first)
  {
  }

  lemma {:induction false} SortSorts<T>(rows: seq<T>, key: T -> OldId)
    ensures Sorted(Sort(rows, key), key)
  {
    if rows != [] {
      SortSorts(rows[1..], key);
      InsertSorts(rows[0], Sort(rows[1..], key), key);
    }
  }

  lemma SameFirst<T>(a: seq<T>, b: seq<T>, key: T -> OldId)
    requires Sorted(a, key) && Sorted(b, key) && DistinctKeys(a, key) && multiset(a) == multiset(b) && a != [] && b != []
    ensures a[0] == b[0]
  {
    assert b[0] in multiset(a) && a[0] in multiset(b);
    var i := IndexOf(b[0], a);
    var j := IndexOf(a[0], b);
    LessIsTotal(key(a[0]), key(b[0]));
    assert key(a[0]) == key(b[0]);
  }

  /** Rows with distinct keys have one sorted order. */
  lemma {:induction false} SortedIsUnique<T>(a: seq<T>, b: seq<T>, key: T -> OldId)
    requires Sorted(a, key) && Sorted(b, key) && DistinctKeys(a, key) && multiset(a) == multiset(b)
    ensures a == b
  {
    if a == [] {
      assert |multiset(b)| == 0;
    } else {
      assert b != [] by { assert a[0] in multiset(b); }
      SameFirst(a, b, key);
      assert a == [a[0]] + a[1..] && b == [b[0]] + b[1..];
      assert multiset(a[1..]) == multiset(a) - multiset{a[0]};
      assert multiset(b[1..]) == multiset(b) - multiset{b[0]};
      SortedIsUnique(a[1..], b[1..], key);
    }
  }

  lemma IndexOf<T>(x: T, rows: seq<T>) returns (i: nat)
    requires x in multiset(rows)
    ensures i < |rows| && rows[i] == x
  {
    i :| 0 <= i < |rows| && rows[i] == x;
  }

  lemma KeysCountOnce<T>(rows: seq<T>, p: nat, key: T -> OldId)
    requires DistinctKeys(rows, key) && p < |rows|
    ensures multiset(rows)[rows[p]] == 1
  {
    assert rows == rows[..p] + [rows[p]] + rows[p + 1..];
    assert rows[p] !in rows[..p] && rows[p] !in rows[p + 1..];
  }

  lemma RepeatsCountTwice<T>(rows: seq<T>, i: nat, j: nat)
    requires i < j < |rows| && rows[i] == rows[j]
    ensures multiset(rows)[rows[i]] >= 2
  {
    assert rows == rows[..i] + [rows[i]] + rows[i + 1..j] + [rows[j]] + rows[j + 1..];
  }

  lemma {:induction false} DistinctUnderPermutation<T>(a: seq<T>, b: seq<T>, key: T -> OldId)
    requires multiset(a) == multiset(b) && DistinctKeys(a, key)
    ensures DistinctKeys(b, key)
  {
    forall i: nat, j: nat | i < j < |b|
      ensures key(b[i]) != key(b[j])
    {
      var p := IndexOf(b[i], a);
      var q := IndexOf(b[j], a);
      if b[i] == b[j] {
        KeysCountOnce(a, p, key);
        RepeatsCountTwice(b, i, j);
        assert false;
      }
    }
  }

  lemma SortIsCanonical<T>(a: seq<T>, b: seq<T>, key: T -> OldId)
    requires DistinctKeys(a, key)
    ensures multiset(a) == multiset(b) <==> Sort(a, key) == Sort(b, key)
    ensures Sort(Sort(a, key), key) == Sort(a, key)
    ensures DistinctKeys(Sort(a, key), key) && |Sort(a, key)| == |a|
  {
    SortPermutes(a, key);
    SortPermutes(b, key);
    SortPermutes(Sort(a, key), key);
    SortSorts(a, key);
    SortSorts(b, key);
    SortSorts(Sort(a, key), key);
    DistinctUnderPermutation(a, Sort(a, key), key);
    SortedIsUnique(Sort(a, key), Sort(Sort(a, key), key), key);
    if multiset(a) == multiset(b) {
      SortedIsUnique(Sort(a, key), Sort(b, key), key);
    }
    assert |multiset(a)| == |a| && |multiset(Sort(a, key))| == |Sort(a, key)|;
  }

  // ---------------------------------------------------------------- the source

  const ALBUM_KEY := (row: Album) => row.id
  const SONG_KEY := (row: Song) => row.id
  const ACCOUNT_KEY := (row: Account) => row.id

  function Elements(s: seq<string>): set<string> { set x | x in s }

  function KeyList<T>(rows: seq<T>, key: T -> OldId): (list: seq<OldId>)
    ensures |list| == |rows| && forall i :: 0 <= i < |rows| ==> list[i] == key(rows[i])
  {
    seq(|rows|, i requires 0 <= i < |rows| => key(rows[i]))
  }

  function Keys<T>(rows: seq<T>, key: T -> OldId): set<OldId> { Elements(KeyList(rows, key)) }

  function SortedSource(source: Source): Source {
    Source(Sort(source.albums, ALBUM_KEY), Sort(source.songs, SONG_KEY), Sort(source.accounts, ACCOUNT_KEY))
  }

  /** As the code does it: a set of the keys as large as the list. */
  predicate AcceptsSource(s: Source) {
    && |Keys(s.albums, ALBUM_KEY)| == |s.albums|
    && |Keys(s.songs, SONG_KEY)| == |s.songs|
    && (forall i :: 0 <= i < |s.songs| ==> s.songs[i].albumId in Keys(s.albums, ALBUM_KEY))
    && |Keys(s.accounts, ACCOUNT_KEY)| == |s.accounts|
  }

  function ReadSource(input: Source): Option<Source> {
    var source := SortedSource(input);
    if AcceptsSource(source) then Some(source) else None
  }

  // ---------------------------------------------------------------- validation

  /** A later row with the same old identity replaces an earlier one. */
  function RowMap<R>(rows: seq<R>, key: R -> OldId): map<OldId, R> {
    if rows == [] then map[] else RowMap(rows[..|rows| - 1], key)[key(rows[|rows| - 1]) := rows[|rows| - 1]]
  }

  const ALBUM_OLD := (row: AlbumRow) => row.oldId
  const SONG_OLD := (row: SongRow) => row.oldId
  const ACCOUNT_OLD := (row: AccountRow) => row.oldId

  function NewIds(m: Mapping): seq<Uuid> {
    KeyList(m.albums, (row: AlbumRow) => row.id) + KeyList(m.songs, (row: SongRow) => row.id)
    + KeyList(m.accounts, (row: AccountRow) => row.id)
  }

  predicate ActiveAdmin(row: AccountRow) { row.facts.role == Admin && row.facts.status == Active }

  predicate ResetsOk(m: Mapping, accounts: map<OldId, AccountRow>) {
    forall i :: 0 <= i < |m.resetAdmins| ==> m.resetAdmins[i] in accounts && ActiveAdmin(accounts[m.resetAdmins[i]])
  }

  predicate FactsOk(source: Source, accounts: map<OldId, AccountRow>) {
    forall i :: 0 <= i < |source.accounts| ==>
      source.accounts[i].id in accounts && accounts[source.accounts[i].id].facts == source.accounts[i].facts
  }

  predicate AlbumsOk(source: Source, albums: map<OldId, AlbumRow>, songs: map<OldId, SongRow>) {
    forall i :: 0 <= i < |source.songs| ==>
      && source.songs[i].id in songs
      && source.songs[i].albumId in albums && songs[source.songs[i].id].albumId == albums[source.songs[i].albumId].id
  }

  predicate Accepts(source: Source, m: Mapping) {
    var albums, songs, accounts := RowMap(m.albums, ALBUM_OLD), RowMap(m.songs, SONG_OLD), RowMap(m.accounts, ACCOUNT_OLD);
    && m.fingerprint == source
    && |Elements(NewIds(m))| == |NewIds(m)|
    && |m.albums| == |albums| == |source.albums|
    && |m.songs| == |songs| == |source.songs|
    && (forall i :: 0 <= i < |source.albums| ==> source.albums[i].id in albums)
    && |m.accounts| == |accounts| == |source.accounts|
    && FactsOk(source, accounts)
    && |Elements(m.resetAdmins)| == |m.resetAdmins|
    && ResetsOk(m, accounts)
    && AlbumsOk(source, albums, songs)
  }

  function Validate(input: Source, m: Mapping): Option<Mapping> {
    var read := ReadSource(input);
    if read.Some? && Accepts(read.value, m) then Some(m) else None
  }

  // ---------------------------------------------------------------- what an exact map is

  predicate NoRepeats(s: seq<string>) {
    forall i, j :: 0 <= i < j < |s| ==> s[i] != s[j]
  }

  /** One row for each identity of the source, and no other row. */
  ghost predicate OneForEach<T, R>(rows: seq<T>, key: T -> OldId, renamed: seq<R>, oldOf: R -> OldId) {
    DistinctKeys(renamed, oldOf) && Keys(renamed, oldOf) == Keys(rows, key)
  }

  /** The song's row points at the row of the song's album. */
  ghost predicate SongsFollowAlbums(source: Source, m: Mapping) {
    forall i, r, a | 0 <= i < |source.songs| && r in m.songs && a in m.albums
      && r.oldId == source.songs[i].id && a.oldId == source.songs[i].albumId :: r.albumId == a.id
  }

  ghost predicate AccountsKeepFacts(source: Source, m: Mapping) {
    forall i, r | 0 <= i < |source.accounts| && r in m.accounts && r.oldId == source.accounts[i].id ::
      r.facts == source.accounts[i].facts
  }

  ghost predicate HasActiveAdmin(rows: seq<AccountRow>, id: OldId) {
    exists r | r in rows :: r.oldId == id && ActiveAdmin(r)
  }

  ghost predicate ResetsAreActiveAdmins(m: Mapping) {
    NoRepeats(m.resetAdmins) && forall i :: 0 <= i < |m.resetAdmins| ==> HasActiveAdmin(m.accounts, m.resetAdmins[i])
  }

  /** The renaming is a bijection onto identities used once, and commutes with the reference from song to album. */
  ghost predicate Exact(source: Source, m: Mapping) {
    && m.fingerprint == source && NoRepeats(NewIds(m))
    && OneForEach(source.albums, ALBUM_KEY, m.albums, ALBUM_OLD)
    && OneForEach(source.songs, SONG_KEY, m.songs, SONG_OLD)
    && OneForEach(source.accounts, ACCOUNT_KEY, m.accounts, ACCOUNT_OLD)
    && SongsFollowAlbums(source, m) && AccountsKeepFacts(source, m) && ResetsAreActiveAdmins(m)
  }

  // ---------------------------------------------------------------- counting

  lemma {:induction false} SizeTellsRepeats(s: seq<string>)
    ensures |Elements(s)| <= |s|
    ensures |Elements(s)| == |s| <==> NoRepeats(s)
  {
    if s != [] {
      var init, last := s[..|s| - 1], s[|s| - 1];
      SizeTellsRepeats(init);
      assert s == init + [last];
      assert Elements(s) == Elements(init) + {last};
      if last in init {
        var i :| 0 <= i < |init| && init[i] == last;
        assert s[i] == s[|s| - 1];
        assert Elements(s) == Elements(init);
      } else {
        assert NoRepeats(s) <==> NoRepeats(init);
      }
    }
  }

  lemma SizeTellsDistinct<T>(rows: seq<T>, key: T -> OldId)
    ensures |Keys(rows, key)| == |rows| <==> DistinctKeys(rows, key)
  {
    SizeTellsRepeats(KeyList(rows, key));
    var list := KeyList(rows, key);
    if NoRepeats(list) {
      assert forall i, j :: 0 <= i < j < |rows| ==> list[i] != list[j];
    }
  }

  lemma {:induction false} RowMapHasTheKeys<R>(rows: seq<R>, key: R -> OldId)
    ensures RowMap(rows, key).Keys == Keys(rows, key)
    ensures forall id | id in RowMap(rows, key) :: RowMap(rows, key)[id] in rows && key(RowMap(rows, key)[id]) == id
  {
    if rows != [] {
      var init := rows[..|rows| - 1];
      RowMapHasTheKeys(init, key);
      assert KeyList(rows, key) == KeyList(init, key) + [key(rows[|rows| - 1])];
    }
  }

  lemma RowMapFinds<R>(rows: seq<R>, key: R -> OldId, r: R)
    requires DistinctKeys(rows, key) && r in rows
    ensures key(r) in RowMap(rows, key) && RowMap(rows, key)[key(r)] == r
  {
  }

  lemma InclusionAndSize(a: set<string>, b: set<string>)
    requires a <= b && |a| == |b|
    ensures a == b
  {
    if a != b {
      var x :| x in b && x !in a;
      assert a <= b - {x};
      SubsetIsSmaller(a, b - {x});
    }
  }

  lemma {:induction false} SubsetIsSmaller(a: set<string>, b: set<string>)
    requires a <= b
    ensures |a| <= |b|
  {
    if a != {} {
      var x :| x in a;
      SubsetIsSmaller(a - {x}, b - {x});
    }
  }

  /** Equal sizes and inclusion one way are a bijection. */
  lemma Coverage<T, R>(rows: seq<T>, key: T -> OldId, renamed: seq<R>, oldOf: R -> OldId)
    requires DistinctKeys(rows, key)
    ensures |renamed| == |RowMap(renamed, oldOf)| == |rows|
            && (forall i :: 0 <= i < |rows| ==> key(rows[i]) in RowMap(renamed, oldOf))
            <==> OneForEach(rows, key, renamed, oldOf)
  {
    var rowMap := RowMap(renamed, oldOf);
    RowMapHasTheKeys(renamed, oldOf);
    SizeTellsDistinct(rows, key);
    SizeTellsDistinct(renamed, oldOf);
    assert |rowMap| == |rowMap.Keys|;
    assert forall i :: 0 <= i < |rows| ==> KeyList(rows, key)[i] == key(rows[i]) && key(rows[i]) in Keys(rows, key);
    if |renamed| == |rowMap| == |rows| && (forall i :: 0 <= i < |rows| ==> key(rows[i]) in rowMap) {
      assert Keys(rows, key) <= rowMap.Keys;
      InclusionAndSize(Keys(rows, key), rowMap.Keys);
    }
  }

  // ---------------------------------------------------------------- validation is exact

  /** The map finds every row under its own old identity, and nothing else. */
  ghost predicate Indexes<R>(rowMap: map<OldId, R>, rows: seq<R>, key: R -> OldId) {
    && (forall r | r in rows :: key(r) in rowMap && rowMap[key(r)] == r)
    && (forall id | id in rowMap :: rowMap[id] in rows && key(rowMap[id]) == id)
  }

  lemma RowMapIndexes<R>(rows: seq<R>, key: R -> OldId)
    requires DistinctKeys(rows, key)
    ensures Indexes(RowMap(rows, key), rows, key) && RowMap(rows, key).Keys == Keys(rows, key)
  {
    RowMapHasTheKeys(rows, key);
    forall r | r in rows
      ensures key(r) in RowMap(rows, key) && RowMap(rows, key)[key(r)] == r
    {
      RowMapFinds(rows, key, r);
    }
  }

  lemma KeysHold<T>(rows: seq<T>, key: T -> OldId, i: nat)
    requires i < |rows|
    ensures key(rows[i]) in Keys(rows, key)
  {
  }

  ghost predicate SongFollows(song: Song, m: Mapping) {
    forall r, a | r in m.songs && a in m.albums && r.oldId == song.id && a.oldId == song.albumId :: r.albumId == a.id
  }

  lemma OneSongFollows(song: Song, m: Mapping, albums: map<OldId, AlbumRow>, songs: map<OldId, SongRow>)
    requires Indexes(albums, m.albums, ALBUM_OLD) && Indexes(songs, m.songs, SONG_OLD)
    requires song.id in songs && song.albumId in albums
    ensures SongFollows(song, m) <==> songs[song.id].albumId == albums[song.albumId].id
  {
  }

  lemma SongsFollow(source: Source, m: Mapping)
    requires OneForEach(source.albums, ALBUM_KEY, m.albums, ALBUM_OLD) && OneForEach(source.songs, SONG_KEY, m.songs, SONG_OLD)
    requires forall i :: 0 <= i < |source.songs| ==> source.songs[i].albumId in Keys(source.albums, ALBUM_KEY)
    ensures AlbumsOk(source, RowMap(m.albums, ALBUM_OLD), RowMap(m.songs, SONG_OLD)) <==> SongsFollowAlbums(source, m)
  {
    RowMapIndexes(m.albums, ALBUM_OLD);
    RowMapIndexes(m.songs, SONG_OLD);
    forall i: nat | i < |source.songs|
      ensures source.songs[i].id in RowMap(m.songs, SONG_OLD) && source.songs[i].albumId in RowMap(m.albums, ALBUM_OLD)
      ensures SongFollows(source.songs[i], m) <==>
                RowMap(m.songs, SONG_OLD)[source.songs[i].id].albumId == RowMap(m.albums, ALBUM_OLD)[source.songs[i].albumId].id
    {
      KeysHold(source.songs, SONG_KEY, i);
      OneSongFollows(source.songs[i], m, RowMap(m.albums, ALBUM_OLD), RowMap(m.songs, SONG_OLD));
    }
  }

  lemma FactsAreKept(source: Source, m: Mapping)
    requires OneForEach(source.accounts, ACCOUNT_KEY, m.accounts, ACCOUNT_OLD)
    ensures FactsOk(source, RowMap(m.accounts, ACCOUNT_OLD)) <==> AccountsKeepFacts(source, m)
  {
    RowMapIndexes(m.accounts, ACCOUNT_OLD);
    forall i: nat | i < |source.accounts|
      ensures source.accounts[i].id in RowMap(m.accounts, ACCOUNT_OLD)
    {
      KeysHold(source.accounts, ACCOUNT_KEY, i);
    }
    assert forall r | r in m.accounts :: ACCOUNT_OLD(r) == r.oldId;
  }

  lemma ResetIsChecked(rows: seq<AccountRow>, accounts: map<OldId, AccountRow>, id: OldId)
    requires Indexes(accounts, rows, ACCOUNT_OLD)
    ensures id in accounts && ActiveAdmin(accounts[id]) <==> HasActiveAdmin(rows, id)
  {
  }

  lemma ResetsAreChecked(m: Mapping)
    requires DistinctKeys(m.accounts, ACCOUNT_OLD)
    ensures (|Elements(m.resetAdmins)| == |m.resetAdmins| && ResetsOk(m, RowMap(m.accounts, ACCOUNT_OLD))) <==> ResetsAreActiveAdmins(m)
  {
    SizeTellsRepeats(m.resetAdmins);
    RowMapIndexes(m.accounts, ACCOUNT_OLD);
    forall i | 0 <= i < |m.resetAdmins|
      ensures m.resetAdmins[i] in RowMap(m.accounts, ACCOUNT_OLD) && ActiveAdmin(RowMap(m.accounts, ACCOUNT_OLD)[m.resetAdmins[i]])
              <==> HasActiveAdmin(m.accounts, m.resetAdmins[i])
    {
      ResetIsChecked(m.accounts, RowMap(m.accounts, ACCOUNT_OLD), m.resetAdmins[i]);
    }
  }

  lemma SourceHasDistinctKeys(source: Source)
    requires AcceptsSource(source)
    ensures DistinctKeys(source.albums, ALBUM_KEY) && DistinctKeys(source.songs, SONG_KEY) && DistinctKeys(source.accounts, ACCOUNT_KEY)
  {
    SizeTellsDistinct(source.albums, ALBUM_KEY);
    SizeTellsDistinct(source.songs, SONG_KEY);
    SizeTellsDistinct(source.accounts, ACCOUNT_KEY);
  }

  /** The three bijections, as the code counts them. */
  predicate CountsOk(source: Source, m: Mapping) {
    var albums, songs, accounts := RowMap(m.albums, ALBUM_OLD), RowMap(m.songs, SONG_OLD), RowMap(m.accounts, ACCOUNT_OLD);
    && |m.albums| == |albums| == |source.albums| && (forall i :: 0 <= i < |source.albums| ==> source.albums[i].id in albums)
    && |m.songs| == |songs| == |source.songs| && (forall i :: 0 <= i < |source.songs| ==> source.songs[i].id in songs)
    && |m.accounts| == |accounts| == |source.accounts| && (forall i :: 0 <= i < |source.accounts| ==> source.accounts[i].id in accounts)
  }

  ghost predicate Bijections(source: Source, m: Mapping) {
    && OneForEach(source.albums, ALBUM_KEY, m.albums, ALBUM_OLD)
    && OneForEach(source.songs, SONG_KEY, m.songs, SONG_OLD)
    && OneForEach(source.accounts, ACCOUNT_KEY, m.accounts, ACCOUNT_OLD)
  }

  lemma CountsAreBijections(source: Source, m: Mapping)
    requires AcceptsSource(source)
    ensures CountsOk(source, m) <==> Bijections(source, m)
  {
    SourceHasDistinctKeys(source);
    Coverage(source.albums, ALBUM_KEY, m.albums, ALBUM_OLD);
    Coverage(source.songs, SONG_KEY, m.songs, SONG_OLD);
    Coverage(source.accounts, ACCOUNT_KEY, m.accounts, ACCOUNT_OLD);
    assert forall i :: 0 <= i < |source.albums| ==> ALBUM_KEY(source.albums[i]) == source.albums[i].id;
    assert forall i :: 0 <= i < |source.songs| ==> SONG_KEY(source.songs[i]) == source.songs[i].id;
    assert forall i :: 0 <= i < |source.accounts| ==> ACCOUNT_KEY(source.accounts[i]) == source.accounts[i].id;
  }

  /** A map is accepted for a source exactly when it is such a renaming. */
  lemma AcceptedMapsAreExact(source: Source, m: Mapping)
    requires AcceptsSource(source)
    ensures Accepts(source, m) <==> Exact(source, m)
  {
    CountsAreBijections(source, m);
    SizeTellsRepeats(NewIds(m));
    if Bijections(source, m) {
      FactsAreKept(source, m);
      ResetsAreChecked(m);
      SongsFollow(source, m);
    }
  }

  // ---------------------------------------------------------------- the fingerprint

  ghost predicate SameRows(a: Source, b: Source) {
    multiset(a.albums) == multiset(b.albums) && multiset(a.songs) == multiset(b.songs) && multiset(a.accounts) == multiset(b.accounts)
  }

  lemma SortedKeysAreDistinct(input: Source)
    requires AcceptsSource(SortedSource(input))
    ensures DistinctKeys(input.albums, ALBUM_KEY) && DistinctKeys(input.songs, SONG_KEY) && DistinctKeys(input.accounts, ACCOUNT_KEY)
  {
    SourceHasDistinctKeys(SortedSource(input));
    SortPermutes(input.albums, ALBUM_KEY);
    SortPermutes(input.songs, SONG_KEY);
    SortPermutes(input.accounts, ACCOUNT_KEY);
    DistinctUnderPermutation(Sort(input.albums, ALBUM_KEY), input.albums, ALBUM_KEY);
    DistinctUnderPermutation(Sort(input.songs, SONG_KEY), input.songs, SONG_KEY);
    DistinctUnderPermutation(Sort(input.accounts, ACCOUNT_KEY), input.accounts, ACCOUNT_KEY);
  }

  /** An accepted source has the fingerprint of exactly its rows, in whatever order they come. */
  lemma FingerprintIsOfTheRows(a: Source, b: Source)
    requires ReadSource(a).Some?
    ensures ReadSource(a) == ReadSource(b) <==> SameRows(a, b)
  {
    SortedKeysAreDistinct(a);
    SortIsCanonical(a.albums, b.albums, ALBUM_KEY);
    SortIsCanonical(a.songs, b.songs, SONG_KEY);
    SortIsCanonical(a.accounts, b.accounts, ACCOUNT_KEY);
  }

  /** So a map stays valid when the source is exported again in another order, and for no other source. */
  lemma ValidityIsOfTheRows(a: Source, b: Source, m: Mapping)
    requires Validate(a, m).Some?
    ensures Validate(b, m).Some? <==> SameRows(a, b)
  {
    FingerprintIsOfTheRows(a, b);
  }

  // ---------------------------------------------------------------- creation

  /** `next` gives the identity of each call in turn: albums first, then accounts, then songs. */
  function NewMapping(source: Source, next: nat -> Uuid, resets: seq<OldId>): Mapping
    requires AcceptsSource(source)
  {
    var albums := seq(|source.albums|, i requires 0 <= i < |source.albums| => AlbumRow(source.albums[i].id, next(i)));
    var renamed := RowMap(albums, ALBUM_OLD);
    var accounts := seq(|source.accounts|, i requires 0 <= i < |source.accounts| =>
      AccountRow(source.accounts[i].id, next(|source.albums| + i), source.accounts[i].facts));
    var songs := seq(|source.songs|, i requires 0 <= i < |source.songs| =>
      SongRow(source.songs[i].id, next(|source.albums| + |source.accounts| + i),
              if source.songs[i].albumId in renamed then renamed[source.songs[i].albumId].id else ""));
    Mapping(source, albums, songs, accounts, resets)
  }

  function Create(input: Source, next: nat -> Uuid, resets: seq<OldId>): Option<Mapping> {
    var read := ReadSource(input);
    if read.None? then None else Validate(read.value, NewMapping(read.value, next, resets))
  }

  predicate FreshIds(next: nat -> Uuid, n: nat) {
    forall i, j :: 0 <= i < j < n ==> next(i) != next(j)
  }

  ghost predicate IsActiveAdmin(accounts: seq<Account>, id: OldId) {
    exists a | a in accounts :: a.id == id && a.facts.role == Admin && a.facts.status == Active
  }

  ghost predicate AreActiveAdmins(accounts: seq<Account>, resets: seq<OldId>) {
    NoRepeats(resets) && forall k :: 0 <= k < |resets| ==> IsActiveAdmin(accounts, resets[k])
  }

  lemma SameKeys<T, R>(rows: seq<T>, key: T -> OldId, renamed: seq<R>, oldOf: R -> OldId)
    requires DistinctKeys(rows, key) && |renamed| == |rows| && forall i :: 0 <= i < |rows| ==> oldOf(renamed[i]) == key(rows[i])
    ensures OneForEach(rows, key, renamed, oldOf)
  {
  }

  lemma NewMappingRenames(source: Source, next: nat -> Uuid, resets: seq<OldId>)
    requires AcceptsSource(source)
    ensures Bijections(source, NewMapping(source, next, resets))
  {
    SourceHasDistinctKeys(source);
    var m := NewMapping(source, next, resets);
    SameKeys(source.albums, ALBUM_KEY, m.albums, ALBUM_OLD);
    SameKeys(source.songs, SONG_KEY, m.songs, SONG_OLD);
    SameKeys(source.accounts, ACCOUNT_KEY, m.accounts, ACCOUNT_OLD);
  }

  /** The list has the songs before the accounts; the identities were drawn the other way round. */
  function DrawnAt(source: Source, k: nat): nat
    requires k < |source.albums| + |source.songs| + |source.accounts|
  {
    if k < |source.albums| then k
    else if k < |source.albums| + |source.songs| then k + |source.accounts|
    else k - |source.songs|
  }

  lemma NewIdAt(source: Source, next: nat -> Uuid, resets: seq<OldId>, k: nat)
    requires AcceptsSource(source) && k < |source.albums| + |source.songs| + |source.accounts|
    ensures |NewIds(NewMapping(source, next, resets))| == |source.albums| + |source.songs| + |source.accounts|
    ensures NewIds(NewMapping(source, next, resets))[k] == next(DrawnAt(source, k))
  {
  }

  lemma NewIdsAreFresh(source: Source, next: nat -> Uuid, resets: seq<OldId>)
    requires AcceptsSource(source) && FreshIds(next, |source.albums| + |source.accounts| + |source.songs|)
    ensures NoRepeats(NewIds(NewMapping(source, next, resets)))
  {
    var ids := NewIds(NewMapping(source, next, resets));
    forall i: nat, j: nat | i < j < |ids|
      ensures ids[i] != ids[j]
    {
      NewIdAt(source, next, resets, i);
      NewIdAt(source, next, resets, j);
    }
  }

  lemma SameRow<R>(rows: seq<R>, key: R -> OldId, r: R, i: nat)
    requires DistinctKeys(rows, key) && r in rows && i < |rows| && key(r) == key(rows[i])
    ensures r == rows[i]
  {
  }

  lemma NewSongsFollow(source: Source, next: nat -> Uuid, resets: seq<OldId>)
    requires AcceptsSource(source)
    ensures SongsFollowAlbums(source, NewMapping(source, next, resets))
  {
    var m := NewMapping(source, next, resets);
    NewMappingRenames(source, next, resets);
    forall i: nat, r, a | i < |source.songs| && r in m.songs && a in m.albums
      && r.oldId == source.songs[i].id && a.oldId == source.songs[i].albumId
      ensures r.albumId == a.id
    {
      SameRow(m.songs, SONG_OLD, r, i);
      RowMapFinds(m.albums, ALBUM_OLD, a);
    }
  }

  lemma NewAccountsKeepFacts(source: Source, next: nat -> Uuid, resets: seq<OldId>)
    requires AcceptsSource(source)
    ensures AccountsKeepFacts(source, NewMapping(source, next, resets))
  {
    var m := NewMapping(source, next, resets);
    NewMappingRenames(source, next, resets);
    forall i, r | 0 <= i < |source.accounts| && r in m.accounts && r.oldId == source.accounts[i].id
      ensures r.facts == source.accounts[i].facts
    {
      var k :| 0 <= k < |m.accounts| && m.accounts[k] == r;
      assert ACCOUNT_OLD(m.accounts[k]) == ACCOUNT_OLD(m.accounts[i]);
    }
  }

  lemma NewResets(source: Source, next: nat -> Uuid, resets: seq<OldId>, id: OldId)
    requires AcceptsSource(source)
    ensures HasActiveAdmin(NewMapping(source, next, resets).accounts, id) <==> IsActiveAdmin(source.accounts, id)
  {
    var rows := NewMapping(source, next, resets).accounts;
    if HasActiveAdmin(rows, id) {
      var r :| r in rows && r.oldId == id && ActiveAdmin(r);
      var k :| 0 <= k < |rows| && rows[k] == r;
      assert source.accounts[k] in source.accounts;
    }
    if IsActiveAdmin(source.accounts, id) {
      var a :| a in source.accounts && a.id == id && a.facts.role == Admin && a.facts.status == Active;
      var k :| 0 <= k < |source.accounts| && source.accounts[k] == a;
      assert rows[k] in rows && ActiveAdmin(rows[k]);
    }
  }

  lemma NewMappingIsExact(source: Source, next: nat -> Uuid, resets: seq<OldId>)
    requires AcceptsSource(source) && FreshIds(next, |source.albums| + |source.accounts| + |source.songs|)
    ensures Accepts(source, NewMapping(source, next, resets)) <==> AreActiveAdmins(source.accounts, resets)
  {
    var m := NewMapping(source, next, resets);
    AcceptedMapsAreExact(source, m);
    NewMappingRenames(source, next, resets);
    NewIdsAreFresh(source, next, resets);
    NewSongsFollow(source, next, resets);
    NewAccountsKeepFacts(source, next, resets);
    forall k | 0 <= k < |resets|
      ensures HasActiveAdmin(m.accounts, resets[k]) <==> IsActiveAdmin(source.accounts, resets[k])
    {
      NewResets(source, next, resets, resets[k]);
    }
  }

  lemma ReadingIsIdempotent(input: Source)
    requires ReadSource(input).Some?
    ensures ReadSource(ReadSource(input).value) == ReadSource(input)
  {
    SortedKeysAreDistinct(input);
    SortIsCanonical(input.albums, input.albums, ALBUM_KEY);
    SortIsCanonical(input.songs, input.songs, SONG_KEY);
    SortIsCanonical(input.accounts, input.accounts, ACCOUNT_KEY);
  }

  lemma ActiveAdminsInAnyOrder(input: Source, resets: seq<OldId>)
    ensures AreActiveAdmins(SortedSource(input).accounts, resets) <==> AreActiveAdmins(input.accounts, resets)
  {
    SortPermutes(input.accounts, ACCOUNT_KEY);
    var a, b := input.accounts, SortedSource(input).accounts;
    assert forall x :: x in a <==> x in multiset(a);
    assert forall x :: x in b <==> x in multiset(b);
    assert forall id :: IsActiveAdmin(a, id) <==> IsActiveAdmin(b, id);
  }

  /** With fresh identities, creation succeeds exactly when the source reads and the resets name distinct active admins. */
  lemma CreatedMapsAreValid(input: Source, next: nat -> Uuid, resets: seq<OldId>)
    requires FreshIds(next, |input.albums| + |input.accounts| + |input.songs|)
    ensures Create(input, next, resets).Some? <==> ReadSource(input).Some? && AreActiveAdmins(input.accounts, resets)
    ensures Create(input, next, resets).Some? ==> Validate(input, Create(input, next, resets).value).Some?
  {
    if ReadSource(input).Some? {
      var source := SortedSource(input);
      SortedKeysAreDistinct(input);
      SortIsCanonical(input.albums, input.albums, ALBUM_KEY);
      SortIsCanonical(input.songs, input.songs, SONG_KEY);
      SortIsCanonical(input.accounts, input.accounts, ACCOUNT_KEY);
      ReadingIsIdempotent(input);
      NewMappingIsExact(source, next, resets);
      ActiveAdminsInAnyOrder(input, resets);
    }
  }
}
