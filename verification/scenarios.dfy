/** Concrete runs of the two views, written as the behaviours their users
    see: each lemma or method fixes the inputs and states the outcome. */
module Scenarios {
  import opened Wrappers
  import opened Text
  import opened Steps
  import opened ContentView
  import opened AnalysisView

  /** The five lines of the text box "Cleanse\n\nTone\n  \nMoisturize". */
  lemma StepsExampleLines()
    ensures Join(["Cleanse", "", "Tone", "  ", "Moisturize"], [LineFeed]) == "Cleanse\n\nTone\n  \nMoisturize"
  {
    var lines := ["Cleanse", "", "Tone", "  ", "Moisturize"];
    assert lines[1..] == ["", "Tone", "  ", "Moisturize"];
    assert lines[2..] == ["Tone", "  ", "Moisturize"];
    assert lines[3..] == ["  ", "Moisturize"];
    assert lines[4..] == ["Moisturize"];
    var j3 := "  " + [LineFeed] + "Moisturize";
    var j2 := "Tone" + [LineFeed] + j3;
    var j1 := "" + [LineFeed] + j2;
    var j0 := "Cleanse" + [LineFeed] + j1;
    assert Join(lines[3..], [LineFeed]) == j3;
    assert Join(lines[2..], [LineFeed]) == j2;
    assert Join(lines[1..], [LineFeed]) == j1;
    assert Join(lines, [LineFeed]) == j0;
    assert j0 == "Cleanse\n\nTone\n  \nMoisturize";
  }

  /** Trimming those lines empties the blank one. */
  lemma StepsExampleTrimmed()
    ensures TrimEach(["Cleanse", "", "Tone", "  ", "Moisturize"]) == ["Cleanse", "", "Tone", "", "Moisturize"]
  {
    var trimmed := TrimEach(["Cleanse", "", "Tone", "  ", "Moisturize"]);
    assert trimmed[0] == "Cleanse" by { TrimFixesTrimmed("Cleanse"); }
    assert trimmed[2] == "Tone" by { TrimFixesTrimmed("Tone"); }
    assert trimmed[3] == "" by { BlankIffAllSpace("  "); }
    assert trimmed[4] == "Moisturize" by { TrimFixesTrimmed("Moisturize"); }
  }

  /** Blank lines and surrounding spaces vanish: three steps, in order. */
  lemma StepsExample()
    ensures DeriveSteps("Cleanse\n\nTone\n  \nMoisturize") == ["Cleanse", "Tone", "Moisturize"]
  {
    StepsExampleLines();
    StepsExampleTrimmed();
    DeriveStepsOfLines(["Cleanse", "", "Tone", "  ", "Moisturize"]);
    assert DropEmpty(["Cleanse", "", "Tone", "", "Moisturize"]) == ["Cleanse", "Tone", "Moisturize"];
  }

  /** A result whose guidance has the palette navy and white, no neutrals
      and one shape tip shows "navy, white", an empty neutrals line and one
      tip. */
  lemma GuidanceDisplayExample()
    ensures var r := Some(AnalysisResult("oval", 7.0, 0.9, 0.8, 0.7, 1.3,
                                          Some(Guidance(Some(["navy", "white"]), Some([]), Some(["x"])))));
      Colors(r) == "navy, white" && Neutrals(r) == "" && ShapeTips(r) == ["x"]
  {
  }

  /** A freshly mounted view: the constructor, then the refresh the effect
      on `activeCat` starts on mount, answered with two empty arrays. */
  method MountedView() returns (view: ContentView)
    ensures fresh(view)
    ensures view.State() == ContentState(Skin, BlankProfile, "", 0, [], [], false,
                                         BlankRoutineDraft, false, BlankTipDraft, false)
  {
    view := new ContentView();
    var mount := view.Refresh();
    assert mount == RefreshRequest(Skin, false) && view.loading;
    view.CompleteRefresh(mount, BothParsed(JsonArray([]), JsonArray([])));
  }

  /** Creating the tip "Hydrate" in the default category sends it with no
      tags; an ok response clears the form and refreshes the same category. */
  method TipCreationScenario() {
    var view := MountedView();
    view.EditTipDraft(TipDraft("Hydrate", "Drink water"));
    TrimFixesTrimmed("Hydrate");
    TrimFixesTrimmed("Drink water");
    var sent := view.BeginCreateTip();
    assert sent == Some(TipPayload(Skin, "Hydrate", "Drink water", []));
    assert view.creatingTip;
    var refresh := view.CompleteCreateTip(sent.value, CreateResponse(true));
    assert view.newTip == BlankTipDraft && !view.creatingTip;
    assert refresh == Some(RefreshRequest(Skin, false)) && view.loading;
  }

  /** A refused tip keeps what the user typed. */
  method TipRefusedScenario() {
    var view := MountedView();
    view.EditTipDraft(TipDraft("Hydrate", "Drink water"));
    TrimFixesTrimmed("Hydrate");
    TrimFixesTrimmed("Drink water");
    var sent := view.BeginCreateTip();
    var refresh := view.CompleteCreateTip(sent.value, CreateResponse(false));
    assert view.newTip == TipDraft("Hydrate", "Drink water") && !view.creatingTip && refresh == None;
  }

  /** A routine whose title is only spaces is not sent, and nothing in the
      view changes. */
  method BlankRoutineScenario() {
    var view := MountedView();
    view.EditRoutineDraft(RoutineDraft("   ", "Cleanse"));
    BlankIffAllSpace("   ");
    ghost var before := view.State();
    var sent := view.BeginCreateRoutine();
    assert sent == None && view.State() == before && view.routines == [];
  }

  /** Switching to "sleep" refreshes that category; two empty arrays leave
      both lists empty and the view no longer loading. */
  method SleepCategoryScenario() {
    var view := MountedView();
    var refresh := view.SelectCategory(Sleep);
    assert refresh == Some(RefreshRequest(Sleep, false)) && view.loading;
    view.CompleteRefresh(refresh.value, BothParsed(JsonArray([]), JsonArray([])));
    assert view.routines == [] && view.tips == [] && !view.loading;
  }

  /** A successful save shows "Saved ✓", refreshes, and only then arms the
      timer that clears the status. */
  method SaveProfileScenario() {
    var view := MountedView();
    view.EditProfile(Profile("Ana", "ana@example.com", "dry", "", ""));
    var request := view.BeginSaveProfile();
    assert view.profileStatus == Saving;
    var refresh := view.CompleteSaveProfile(request, SaveResponse(true, None));
    assert view.profileStatus == Saved && refresh == Some(RefreshRequest(Skin, true)) && view.statusTimers == 0;
    view.CompleteRefresh(refresh.value, ReadThrew);
    assert view.statusTimers == 1;
    view.StatusTimerFired();
    assert view.profileStatus == "" && view.profile == Profile("Ana", "ana@example.com", "dry", "", "");
  }

  /** The refresh after a creation is scoped to the category the routine
      was sent with, even when the user has moved to another category in
      the meantime. */
  method CreateThenSwitchScenario() {
    var view := MountedView();
    view.EditRoutineDraft(RoutineDraft("Morning", "Cleanse"));
    TrimFixesTrimmed("Morning");
    var sent := view.BeginCreateRoutine();
    assert sent.Some? && sent.value.category == Skin && sent.value.ownerEmail == None;
    var switched := view.SelectCategory(Hair);
    var refresh := view.CompleteCreateRoutine(sent.value, CreateResponse(true));
    assert view.activeCat == Hair && refresh == Some(RefreshRequest(Skin, false));
  }

  /** Choosing a photo and then clearing the selection returns the view to
      its empty state. */
  method ClearFileScenario() {
    var view := new AnalysisView();
    view.OnFile(Some(FileRef("face.jpg", 2048)), "blob:1");
    assert view.preview == "blob:1" && view.AnalyzeEnabled();
    view.OnFile(None, "");
    assert view.State() == AnalysisState(None, "", false, None, "");
  }

  /** A refused analysis without detail shows "Failed to analyze" and keeps
      the file, so the button is enabled again. */
  method RefusedAnalysisScenario() {
    var view := new AnalysisView();
    var f := FileRef("face.jpg", 2048);
    view.OnFile(Some(f), "blob:1");
    var upload := view.BeginAnalyze();
    assert upload == Some(f) && view.analyzing && !view.AnalyzeEnabled();
    view.CompleteAnalyze(Refused(None));
    assert view.error == FailedToAnalyze && view.result == None && view.file == Some(f);
    assert view.AnalyzeEnabled();
  }
}
