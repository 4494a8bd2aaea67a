/** The read-only story content: a directory listing of story folders, each
    with a manifest and episode documents, and the lookups over it. */
module Stories {
  import opened Outcomes
  import opened JsonValue

  datatype EpisodeRef = EpisodeRef(id: string, file: string)

  datatype Season = Season(episodes: seq<EpisodeRef>)

  /** A manifest; `id`, `title` and `cover` are read with `.get`, so each may
      be missing. */
  datatype Manifest = Manifest(id: Option<string>, title: Option<string>, cover: Option<string>,
                               seasons: seq<Season>)

  /** What a folder's manifest.json holds. */
  datatype ManifestFile = NoManifest | Unparsable | Parsed(manifest: Manifest)

  /** One entry of the stories directory, in listing order; a folder's
      episode documents are keyed by file name. */
  datatype Entry =
    | File(name: string)
    | Folder(name: string, manifestFile: ManifestFile, episodes: map<string, Doc>)

  /** The outcome of the story search: the folder found, the folder whose
      manifest failed to parse (the search raises there), or nothing. */
  datatype Lookup = Found(index: nat) | Unreadable(index: nat) | Absent

  /** The search opens exactly the folders that have a manifest. */
  predicate Opened(e: Entry) {
    e.Folder? && !e.manifestFile.NoManifest?
  }

  predicate Matches(e: Entry, storyId: string) {
    e.Folder? && e.manifestFile.Parsed? && e.manifestFile.manifest.id == Some(storyId)
  }

  predicate Breaks(e: Entry) {
    e.Folder? && e.manifestFile.Unparsable?
  }

  /** The search moves past `e`: it is skipped, or its manifest names another story. */
  predicate Passes(e: Entry, storyId: string) {
    !Opened(e) || (e.manifestFile.Parsed? && e.manifestFile.manifest.id != Some(storyId))
  }

  predicate PassesAll(entries: seq<Entry>, storyId: string, lo: int, hi: int)
    requires 0 <= lo <= hi <= |entries|
  {
    forall j :: lo <= j < hi ==> Passes(entries[j], storyId)
  }

  /** The search from position `i` on: the first folder whose manifest has
      the id wins, and a manifest that does not parse stops the search. */
  function FindFrom(entries: seq<Entry>, storyId: string, i: nat): (r: Lookup)
    requires i <= |entries|
    ensures r.Found? ==> i <= r.index < |entries| && Matches(entries[r.index], storyId)
                         && PassesAll(entries, storyId, i, r.index)
    ensures r.Unreadable? ==> i <= r.index < |entries| && Breaks(entries[r.index])
                              && PassesAll(entries, storyId, i, r.index)
    ensures r.Absent? ==> PassesAll(entries, storyId, i, |entries|)
    decreases |entries| - i
  {
    if i == |entries| then Absent
    else if Breaks(entries[i]) then Unreadable(i)
    else if Matches(entries[i], storyId) then Found(i)
    else FindFrom(entries, storyId, i + 1)
  }

  function Find(entries: seq<Entry>, storyId: string): Lookup {
    FindFrom(entries, storyId, 0)
  }

  /** The converse of the search's contract: a matching folder that every
      earlier entry lets pass is the one found. */
  lemma FindFirstMatch(entries: seq<Entry>, storyId: string, k: nat)
    requires k < |entries| && Matches(entries[k], storyId) && PassesAll(entries, storyId, 0, k)
    ensures Find(entries, storyId) == Found(k)
  {
    assert !Passes(entries[k], storyId);
  }

  /** The search finds nothing exactly when every entry lets it pass. */
  lemma FindAbsent(entries: seq<Entry>, storyId: string)
    ensures Find(entries, storyId) == Absent <==> PassesAll(entries, storyId, 0, |entries|)
  {
    var r := Find(entries, storyId);
    if r.Found? || r.Unreadable? {
      assert !Passes(entries[r.index], storyId);
    }
  }

  // ---- Episode lookup inside a manifest ----

  /** Position (s, e) names an episode of the manifest. */
  predicate Listed(seasons: seq<Season>, s: int, e: int) {
    0 <= s < |seasons| && 0 <= e < |seasons[s].episodes|
  }

  /** Season-then-episode order, the order in which the episodes are searched. */
  predicate Earlier(s1: int, e1: int, s2: int, e2: int) {
    s1 < s2 || (s1 == s2 && e1 < e2)
  }

  function FileFrom(episodes: seq<EpisodeRef>, episodeId: string, j: nat): Option<string>
    requires j <= |episodes|
    decreases |episodes| - j
  {
    if j == |episodes| then None
    else if episodes[j].id == episodeId then Some(episodes[j].file)
    else FileFrom(episodes, episodeId, j + 1)
  }

  function EpisodeFileFrom(seasons: seq<Season>, episodeId: string, s: nat): Option<string>
    requires s <= |seasons|
    decreases |seasons| - s
  {
    if s == |seasons| then None
    else match FileFrom(seasons[s].episodes, episodeId, 0)
      case Some(f) => Some(f)
      case None => EpisodeFileFrom(seasons, episodeId, s + 1)
  }

  /** The file of the first episode, over all seasons in order, with the id
      (the `next(...)` over the nested generator). */
  function EpisodeFile(seasons: seq<Season>, episodeId: string): (r: Option<string>)
    ensures r.None? <==> forall s, e :: Listed(seasons, s, e) ==> seasons[s].episodes[e].id != episodeId
    ensures r.Some? ==> exists s, e :: Listed(seasons, s, e) && seasons[s].episodes[e].id == episodeId
                                       && seasons[s].episodes[e].file == r.value
  {
    EpisodeFileFromNone(seasons, episodeId, 0);
    EpisodeFileFromSome(seasons, episodeId, 0);
    EpisodeFileFrom(seasons, episodeId, 0)
  }

  lemma {:induction false} FileFromSome(episodes: seq<EpisodeRef>, episodeId: string, j: nat)
    requires j <= |episodes|
    ensures FileFrom(episodes, episodeId, j).Some?
            ==> exists k :: j <= k < |episodes| && episodes[k].id == episodeId
                            && episodes[k].file == FileFrom(episodes, episodeId, j).value
    decreases |episodes| - j
  {
    if j < |episodes| && episodes[j].id != episodeId {
      FileFromSome(episodes, episodeId, j + 1);
    }
  }

  lemma {:induction false} EpisodeFileFromSome(seasons: seq<Season>, episodeId: string, s: nat)
    requires s <= |seasons|
    ensures EpisodeFileFrom(seasons, episodeId, s).Some?
            ==> exists s', e :: s <= s' && Listed(seasons, s', e)
                                && seasons[s'].episodes[e].id == episodeId
                                && seasons[s'].episodes[e].file == EpisodeFileFrom(seasons, episodeId, s).value
    decreases |seasons| - s
  {
    if s < |seasons| {
      FileFromSome(seasons[s].episodes, episodeId, 0);
      if FileFrom(seasons[s].episodes, episodeId, 0).Some? {
        var k :| 0 <= k < |seasons[s].episodes| && seasons[s].episodes[k].id == episodeId
                 && seasons[s].episodes[k].file == FileFrom(seasons[s].episodes, episodeId, 0).value;
        assert Listed(seasons, s, k);
      } else {
        EpisodeFileFromSome(seasons, episodeId, s + 1);
      }
    }
  }

  lemma {:induction false} FileFromNone(episodes: seq<EpisodeRef>, episodeId: string, j: nat)
    requires j <= |episodes|
    ensures FileFrom(episodes, episodeId, j).None?
            <==> forall k :: j <= k < |episodes| ==> episodes[k].id != episodeId
    decreases |episodes| - j
  {
    if j < |episodes| {
      FileFromNone(episodes, episodeId, j + 1);
    }
  }

  lemma {:induction false} FileFromFirst(episodes: seq<EpisodeRef>, episodeId: string, j: nat, k: nat)
    requires j <= k < |episodes| && episodes[k].id == episodeId
    requires forall l :: j <= l < k ==> episodes[l].id != episodeId
    ensures FileFrom(episodes, episodeId, j) == Some(episodes[k].file)
    decreases k - j
  {
    if j < k {
      FileFromFirst(episodes, episodeId, j + 1, k);
    }
  }

  lemma {:induction false} EpisodeFileFromNone(seasons: seq<Season>, episodeId: string, s: nat)
    requires s <= |seasons|
    ensures EpisodeFileFrom(seasons, episodeId, s).None?
            <==> forall s', e :: s <= s' && Listed(seasons, s', e)
                                ==> seasons[s'].episodes[e].id != episodeId
    decreases |seasons| - s
  {
    if s < |seasons| {
      FileFromNone(seasons[s].episodes, episodeId, 0);
      EpisodeFileFromNone(seasons, episodeId, s + 1);
    }
  }

  lemma {:induction false} EpisodeFileFromFirst(seasons: seq<Season>, episodeId: string,
                                                s0: nat, s: nat, e: nat)
    requires s0 <= s && Listed(seasons, s, e) && seasons[s].episodes[e].id == episodeId
    requires forall s', e' :: s0 <= s' && Listed(seasons, s', e') && Earlier(s', e', s, e)
                              ==> seasons[s'].episodes[e'].id != episodeId
    ensures EpisodeFileFrom(seasons, episodeId, s0) == Some(seasons[s].episodes[e].file)
    decreases s - s0
  {
    if s0 < s {
      FileFromNone(seasons[s0].episodes, episodeId, 0);
      assert forall e' :: 0 <= e' < |seasons[s0].episodes| ==> Listed(seasons, s0, e');
      EpisodeFileFromFirst(seasons, episodeId, s0 + 1, s, e);
    } else {
      FileFromFirst(seasons[s].episodes, episodeId, 0, e);
    }
  }

  /** The first episode with the id, in season-then-episode order, gives the file. */
  lemma EpisodeFileFirst(seasons: seq<Season>, episodeId: string, s: nat, e: nat)
    requires Listed(seasons, s, e) && seasons[s].episodes[e].id == episodeId
    requires forall s', e' :: Listed(seasons, s', e') && Earlier(s', e', s, e)
                              ==> seasons[s'].episodes[e'].id != episodeId
    ensures EpisodeFile(seasons, episodeId) == Some(seasons[s].episodes[e].file)
  {
    EpisodeFileFromFirst(seasons, episodeId, 0, s, e);
  }

  // ---- The library listing ----

  datatype Summary = Summary(id: Option<string>, title: Option<string>, cover: Option<string>)

  /** A folder is listed when its manifest parses; one that does not is skipped. */
  predicate Listable(e: Entry) {
    e.Folder? && e.manifestFile.Parsed?
  }

  function SummaryOf(m: Manifest): Summary {
    Summary(m.id, m.title, m.cover)
  }

  /** The summaries of the listable folders, in listing order. */
  function Library(entries: seq<Entry>): (r: seq<Summary>)
    ensures |r| <= |entries|
    decreases |entries|
  {
    if entries == [] then []
    else
      var last := entries[|entries| - 1];
      Library(entries[..|entries| - 1])
      + (if Listable(last) then [SummaryOf(last.manifestFile.manifest)] else [])
  }

  /** The library holds exactly the summaries of the folders whose manifest parses. */
  lemma {:induction false} LibraryMembers(entries: seq<Entry>, x: Summary)
    ensures x in Library(entries)
            <==> exists j :: 0 <= j < |entries| && Listable(entries[j])
                             && SummaryOf(entries[j].manifestFile.manifest) == x
    decreases |entries|
  {
    if entries != [] {
      var n := |entries| - 1;
      var init := entries[..n];
      LibraryMembers(init, x);
      if x in Library(entries) && x !in Library(init) {
        assert Listable(entries[n]) && SummaryOf(entries[n].manifestFile.manifest) == x;
      }
      if exists j :: 0 <= j < |entries| && Listable(entries[j])
                     && SummaryOf(entries[j].manifestFile.manifest) == x {
        var j :| 0 <= j < |entries| && Listable(entries[j])
                 && SummaryOf(entries[j].manifestFile.manifest) == x;
        if j < n {
          assert init[j] == entries[j];
        }
      }
    }
  }
}
