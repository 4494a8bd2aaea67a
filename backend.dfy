/** The request handlers of the backend over its persisted state: the player
    profile (user.json), the saved progress (progress.json) and the story
    content directory. */
module Backend {
  import opened Outcomes
  import opened JsonValue
  import opened Hearts
  import opened Progress
  import opened Stories

  /** The profile as reported to the client, with the seconds until the next heart. */
  datatype UserView = UserView(profile: Profile, nextHeartIn: int)

  /** An episode document's default state: `initial_state`, or the empty
      object when the key is missing; anything but an object cannot be
      overlaid and is `None`. */
  function Template(doc: Doc): (r: Option<State>)
    ensures r.None? <==> "initial_state" in doc && !doc["initial_state"].Obj?
    ensures "initial_state" !in doc ==> r == Some(map[])
    ensures r.Some? && "initial_state" in doc ==> doc["initial_state"] == Obj(r.value)
  {
    if "initial_state" !in doc then Some(map[])
    else if doc["initial_state"].Obj? then Some(doc["initial_state"].fields)
    else None
  }

  /** The episode document with its `initial_state` replaced by the template
      overlaid with the saved progress; every other key is kept. */
  function WithProgress(doc: Doc, saved: State): (r: Option<Doc>)
    ensures r.None? <==> Template(doc).None?
    ensures r.Some? ==> r.value.Keys == doc.Keys + {"initial_state"}
    ensures r.Some? ==> forall k :: k in doc && k != "initial_state" ==> r.value[k] == doc[k]
    ensures r.Some? ==> r.value["initial_state"].Obj?
                        && IsOverlay(Template(doc).value, saved, r.value["initial_state"].fields)
  {
    match Template(doc)
    case None => None
    case Some(template) => Some(doc["initial_state" := Obj(Overlay(template, saved))])
  }

  /** The episode lookup of a folder's manifest yields no usable file name:
      no episode has the id, or the first one that does has an empty file. */
  predicate NoEpisodeFile(e: Entry, episodeId: string)
    requires e.Folder? && e.manifestFile.Parsed?
  {
    var f := EpisodeFile(e.manifestFile.manifest.seasons, episodeId);
    f.None? || f.value == ""
  }

  /** What starting an episode returns once the heart has been paid for. */
  function EpisodeResponse(entries: seq<Entry>, store: Store, storyId: string, episodeId: string)
    : (r: Result<Doc>)
    ensures r == Failure(StoryNotFound) <==> Find(entries, storyId).Absent?
    ensures Find(entries, storyId).Unreadable? ==> r == Failure(ServerError)
    ensures r == Failure(EpisodeNotFound)
            <==> Find(entries, storyId).Found?
                 && NoEpisodeFile(entries[Find(entries, storyId).index], episodeId)
    ensures r.Failure? ==> r.error == StoryNotFound || r.error == EpisodeNotFound
                           || r.error == ServerError
    ensures r.Success?
            <==> (Find(entries, storyId).Found?
                  && var folder := entries[Find(entries, storyId).index];
                     !NoEpisodeFile(folder, episodeId)
                     && var file := EpisodeFile(folder.manifestFile.manifest.seasons, episodeId).value;
                        file in folder.episodes && Template(folder.episodes[file]).Some?)
    ensures r.Success? ==>
              var folder := entries[Find(entries, storyId).index];
              !NoEpisodeFile(folder, episodeId)
              && var file := EpisodeFile(folder.manifestFile.manifest.seasons, episodeId).value;
                 file in folder.episodes
                 && WithProgress(folder.episodes[file], StateOf(store, storyId)) == Some(r.value)
    ensures r.Success? ==> "initial_state" in r.value && r.value["initial_state"].Obj?
    ensures r.Success? ==> forall k :: k in StateOf(store, storyId)
                            ==> k in r.value["initial_state"].fields
                                && r.value["initial_state"].fields[k] == StateOf(store, storyId)[k]
  {
    match Find(entries, storyId)
    case Absent => Failure(StoryNotFound)
    case Unreadable(_) => Failure(ServerError)
    case Found(i) =>
      var folder := entries[i];
      var file := EpisodeFile(folder.manifestFile.manifest.seasons, episodeId);
      if file.None? || file.value == "" then Failure(EpisodeNotFound)
      else if file.value !in folder.episodes then Failure(ServerError)
      else match WithProgress(folder.episodes[file.value], StateOf(store, storyId))
        case None => Failure(ServerError)
        case Some(doc) => Success(doc)
  }

  /** The single-player server. `userFile` and `progressFile` are the two
      persisted files (`None` while the file does not exist); `stories` is
      the listing of the content directory. */
  class Server {
    var userFile: Option<Profile>
    var progressFile: Option<Store>
    const stories: seq<Entry>
    /** How many times user.json has been written. */
    ghost var profileWrites: nat

    /** Every profile the server writes is bounded. */
    ghost predicate Valid()
      reads this
    {
      userFile.Some? ==> Bounded(userFile.value)
    }

    /** The profile a read starts from: the file, or the defaults it is created with. */
    function StoredProfile(): Profile
      reads this
    {
      if userFile.Some? then userFile.value else DEFAULT_PROFILE
    }

    /** The progress store; a missing file reads as the empty store. */
    function StoredProgress(): Store
      reads this
    {
      if progressFile.Some? then progressFile.value else map[]
    }

    /** A fresh installation: neither file exists yet. */
    constructor (stories: seq<Entry>)
      ensures this.stories == stories
      ensures userFile == None && progressFile == None && profileWrites == 0
      ensures Valid()
    {
      this.stories := stories;
      userFile := None;
      progressFile := None;
      profileWrites := 0;
    }

    method SaveUserProfile(p: Profile)
      modifies this
      ensures userFile == Some(p) && progressFile == old(progressFile)
      ensures profileWrites == old(profileWrites) + 1
    {
      userFile := Some(p);
      profileWrites := profileWrites + 1;
    }

    /** Reads the profile, creating the default file first when none exists,
        and applies lazy regeneration at `now`; the file is written again only
        when a heart was added. */
    method GetUserProfile(now: int) returns (u: Profile)
      modifies this
      ensures u == Regenerate(old(StoredProfile()), now)
      ensures userFile == Some(u) && progressFile == old(progressFile)
      ensures profileWrites == old(profileWrites) + (if old(userFile).None? then 1 else 0)
                               + (if Regenerates(old(StoredProfile()), now) then 1 else 0)
      ensures old(Valid()) ==> Valid()
      ensures old(StoredProfile()).lastRegenTime <= now && u.hearts < u.maxHearts
              ==> 0 <= now - u.lastRegenTime < HEART_REGEN_SECONDS
    {
      ghost var before := StoredProfile();
      if userFile.None? {
        SaveUserProfile(DEFAULT_PROFILE);
      }
      u := userFile.value;
      if u.hearts < u.maxHearts {
        var timePassed := now - u.lastRegenTime;
        var add := timePassed / HEART_REGEN_SECONDS;
        if add > 0 {
          u := u.(hearts := Min(u.maxHearts, u.hearts + add),
                  lastRegenTime := now - timePassed % HEART_REGEN_SECONDS);
          SaveUserProfile(u);
        }
      }
      if before.lastRegenTime <= now && u.hearts < u.maxHearts {
        RegenerateCredits(before, now);
      }
    }

    /** The saved state of one story, empty when there is none. */
    method GetStoryProgress(storyId: string) returns (state: State)
      ensures storyId in StoredProgress() ==> state == StoredProgress()[storyId]
      ensures storyId !in StoredProgress() ==> state == map[]
    {
      if progressFile.None? {
        return map[];
      }
      var allProgress := progressFile.value;
      state := if storyId in allProgress then allProgress[storyId] else map[];
    }

    /** Read-modify-write of the progress file: merges `newState` into the
        story's entry and writes the whole store back. */
    method SaveStoryProgress(storyId: string, newState: State)
      modifies this
      ensures progressFile == Some(Saved(old(StoredProgress()), storyId, newState))
      ensures userFile == old(userFile) && profileWrites == old(profileWrites)
    {
      var allProgress: Store := if progressFile.None? then map[] else progressFile.value;
      var current := if storyId in allProgress then allProgress[storyId] else map[];
      current := Overlay(current, newState);
      allProgress := allProgress[storyId := current];
      progressFile := Some(allProgress);
    }

    /** Linear scan of the content directory for the story's folder. */
    method FindStoryPath(storyId: string) returns (r: Lookup)
      ensures r == Find(stories, storyId)
    {
      var i := 0;
      while i < |stories|
        invariant 0 <= i <= |stories|
        invariant FindFrom(stories, storyId, i) == Find(stories, storyId)
      {
        var item := stories[i];
        if item.Folder? && !item.manifestFile.NoManifest? {
          if item.manifestFile.Unparsable? {
            return Unreadable(i);
          }
          if item.manifestFile.manifest.id == Some(storyId) {
            return Found(i);
          }
        }
        i := i + 1;
      }
      return Absent;
    }

    /** The debug reset: default profile, and no saved progress for any story. */
    method DebugResetHearts()
      modifies this
      ensures userFile == Some(DEFAULT_PROFILE) && progressFile == None
      ensures Valid()
      ensures forall s :: StateOf(StoredProgress(), s) == map[]
      ensures profileWrites == old(profileWrites) + 1
    {
      SaveUserProfile(DEFAULT_PROFILE);
      if progressFile.Some? {
        progressFile := None;
      }
    }

    /** The profile after a read, with the wait until the next heart. */
    method GetUser(now: int) returns (view: UserView)
      modifies this
      ensures view.profile == Regenerate(old(StoredProfile()), now)
      ensures view.nextHeartIn == NextHeartIn(view.profile, now)
      ensures userFile == Some(view.profile) && progressFile == old(progressFile)
      ensures old(Valid()) ==> Valid()
      ensures old(StoredProfile()).lastRegenTime <= now
              ==> 0 <= view.nextHeartIn <= HEART_REGEN_SECONDS
                  && (view.profile.hearts < view.profile.maxHearts <==> 0 < view.nextHeartIn)
    {
      ghost var before := StoredProfile();
      var u := GetUserProfile(now);
      var wait := 0;
      if u.hearts < u.maxHearts {
        wait := Max(0, HEART_REGEN_SECONDS - (now - u.lastRegenTime));
      }
      view := UserView(u, wait);
      if before.lastRegenTime <= now {
        WaitAfterRead(before, now);
      }
    }

    /** The summaries of every story folder whose manifest parses. */
    method GetLibrary() returns (lib: seq<Summary>)
      ensures lib == Library(stories)
      ensures forall x :: x in lib <==> exists j :: 0 <= j < |stories| && Listable(stories[j])
                                                   && SummaryOf(stories[j].manifestFile.manifest) == x
    {
      lib := [];
      var i := 0;
      while i < |stories|
        invariant 0 <= i <= |stories|
        invariant lib == Library(stories[..i])
      {
        var item := stories[i];
        if item.Folder? && item.manifestFile.Parsed? {
          var d := item.manifestFile.manifest;
          lib := lib + [Summary(d.id, d.title, d.cover)];
        }
        assert stories[..i + 1][..i] == stories[..i];
        i := i + 1;
      }
      assert stories[..i] == stories;
      forall x
        ensures x in lib <==> exists j :: 0 <= j < |stories| && Listable(stories[j])
                                         && SummaryOf(stories[j].manifestFile.manifest) == x
      {
        LibraryMembers(stories, x);
      }
    }

    /** The manifest of a story. */
    method GetManifest(storyId: string) returns (r: Result<Manifest>)
      ensures r == Failure(NotFound) <==> Find(stories, storyId).Absent?
      ensures Find(stories, storyId).Unreadable? ==> r == Failure(ServerError)
      ensures r.Success? <==> Find(stories, storyId).Found?
      ensures r.Success? ==> r.value == stories[Find(stories, storyId).index].manifestFile.manifest
    {
      var p := FindStoryPath(storyId);
      match p
      case Absent => r := Failure(NotFound);
      case Unreadable(_) => r := Failure(ServerError);
      case Found(i) => r := Success(stories[i].manifestFile.manifest);
    }

    /** Starts an episode: reads the profile, debits and saves one heart, and
        only then looks the story and the episode up, so a request that ends
        in "not found" has already cost a heart. The response carries the
        template state overlaid with the story's saved progress. */
    method StartEpisode(storyId: string, episodeId: string, now: int) returns (r: Result<Doc>)
      modifies this
      ensures progressFile == old(progressFile)
      ensures Debit(Regenerate(old(StoredProfile()), now), now).Failure?
              ==> r == Failure(NoHearts) && userFile == Some(Regenerate(old(StoredProfile()), now))
      ensures Debit(Regenerate(old(StoredProfile()), now), now).Success?
              ==> userFile == Some(Debit(Regenerate(old(StoredProfile()), now), now).value)
                  && r == EpisodeResponse(stories, old(StoredProgress()), storyId, episodeId)
      ensures profileWrites == old(profileWrites) + (if old(userFile).None? then 1 else 0)
                               + (if Regenerates(old(StoredProfile()), now) then 1 else 0)
                               + (if Debit(Regenerate(old(StoredProfile()), now), now).Success? then 1 else 0)
      ensures r == Failure(StoryNotFound) || r == Failure(EpisodeNotFound)
              ==> userFile.Some? && userFile.value.hearts == Regenerate(old(StoredProfile()), now).hearts - 1
      ensures old(Valid()) ==> Valid()
    {
      var u := GetUserProfile(now);
      if u.hearts <= 0 {
        return Failure(NoHearts);
      }
      u := u.(hearts := u.hearts - 1);
      if u.hearts == u.maxHearts - 1 {
        u := u.(lastRegenTime := now);
      }
      SaveUserProfile(u);

      var p := FindStoryPath(storyId);
      if p.Absent? {
        return Failure(StoryNotFound);
      }
      if p.Unreadable? {
        return Failure(ServerError);
      }
      var folder := stories[p.index];
      var manifest := folder.manifestFile.manifest;
      var epFile := EpisodeFile(manifest.seasons, episodeId);
      if epFile.None? || epFile.value == "" {
        return Failure(EpisodeNotFound);
      }
      if epFile.value !in folder.episodes {
        return Failure(ServerError);
      }
      var epData := folder.episodes[epFile.value];
      var template := Template(epData);
      if template.None? {
        return Failure(ServerError);
      }
      var finalState := template.value;
      var savedState := GetStoryProgress(storyId);
      finalState := Overlay(finalState, savedState);
      epData := epData["initial_state" := Obj(finalState)];
      r := Success(epData);
    }
  }
}
