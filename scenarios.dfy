/** Worked scenarios of the endpoints' intended behaviour, stated over the model. */
module Scenarios {
  import opened Outcomes
  import opened JsonValue
  import opened Hearts
  import opened Progress
  import opened Backend

  /** Nine hours after the clock started, one heart of three becomes three:
      two whole periods are credited, capped at the maximum. */
  lemma RegenerationCapsAtMaximum(now: int)
    ensures Regenerate(Profile(1, 3, now - 9 * 3600), now).hearts == 3
  {
  }

  /** Below the maximum, the hour left over after two periods stays on the clock. */
  lemma RegenerationKeepsLeftover(now: int)
    ensures Regenerate(Profile(0, 3, now - 9 * 3600), now) == Profile(2, 3, now - 3600)
  {
  }

  /** Two saves for one story merge, and a later value replaces an earlier one. */
  lemma SavesMerge()
    ensures var once := Saved(map[], "s1", map["a" := Num(1)]);
            var twice := Saved(once, "s1", map["b" := Num(2)]);
            var thrice := Saved(twice, "s1", map["a" := Num(5)]);
            twice["s1"] == map["a" := Num(1), "b" := Num(2)]
            && thrice["s1"] == map["a" := Num(5), "b" := Num(2)]
  {
  }

  /** Saved progress wins over the episode's defaults on a shared key. */
  lemma ProgressOverridesTemplate()
    ensures WithProgress(map["initial_state" := Obj(map["x" := Num(1), "y" := Num(2)])],
                         map["y" := Num(9)])
            == Some(map["initial_state" := Obj(map["x" := Num(1), "y" := Num(9)])])
  {
    var template: State := map["x" := Num(1), "y" := Num(2)];
    var saved: State := map["y" := Num(9)];
    var doc: Doc := map["initial_state" := Obj(template)];
    assert Template(doc) == Some(template);
    assert Overlay(template, saved) == map["x" := Num(1), "y" := Num(9)];
    assert doc["initial_state" := Obj(Overlay(template, saved))]
           == map["initial_state" := Obj(map["x" := Num(1), "y" := Num(9)])];
  }

  /** After a reset, a first start from full starts the clock; a second start
      a little later, from below full, leaves it running. */
  method TwoStartsAfterReset(stories: seq<Stories.Entry>) returns (first: Profile, second: Profile)
    ensures first == Profile(2, 3, 100)
    ensures second == Profile(1, 3, 100)
  {
    var server := new Server(stories);
    server.DebugResetHearts();
    var r1 := server.StartEpisode("story", "episode", 100);
    first := server.userFile.value;
    var r2 := server.StartEpisode("story", "episode", 200);
    second := server.userFile.value;
  }
}
