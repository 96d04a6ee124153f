/**
 * The voice assistant (src/components/VoiceCommands.tsx): an ordered table
 * of spoken triggers, the first-match CONTAINMENT matcher over the
 * normalised transcript, the effects each entry fires, and the two toggles.
 *
 * The page and the speech kit are outside the model: the sections present
 * on the page are a parameter, and every `speak`, `window.open`,
 * `scrollIntoView`, `listen` and `stop` call is appended to an effect log.
 */
module Voice {
  import opened Wrappers
  import opened Text

  /** What an entry's `action` does. */
  datatype Action =
    | ScrollTo(section: string)
    | SpeakAbout
    | OpenGitHub
    | DownloadResume

  /** One row of the `commands` table. */
  datatype VoiceCommand = VoiceCommand(trigger: string, action: Action, description: string)

  /** A call into the browser or the speech kit, in the order it is made. */
  datatype Effect =
    | Speak(text: string)
    | ScrollIntoView(section: string)
    | OpenWindow(url: string, target: string)
    | Listen
    | Stop

  /** The `commands` table, in declaration order: the matcher tries the rows in this order. */
  const Commands: seq<VoiceCommand> := [
    VoiceCommand("show projects", ScrollTo("projects"), "Navigate to projects section"),
    VoiceCommand("show skills", ScrollTo("skills"), "Navigate to skills section"),
    VoiceCommand("show experience", ScrollTo("experience"), "Navigate to experience section"),
    VoiceCommand("show contact", ScrollTo("contact"), "Navigate to contact section"),
    VoiceCommand("go to top", ScrollTo("hero"), "Go to top of page"),
    VoiceCommand("tell me about rohit", SpeakAbout, "Get an audio introduction"),
    VoiceCommand("show github", OpenGitHub, "Open GitHub profile"),
    VoiceCommand("download resume", DownloadResume, "Download resume")
  ]

  /** The spoken introduction; its second and third lines keep the template's indentation. */
  const Introduction: string :=
    "Hi! I'm Rohit Dhakad, a passionate Software Development Engineer at Moving Tech Innovations. \n" +
    "    I architected India's first open mobility platform, Namma Yatri, and built scalable subscription revenue systems. \n" +
    "    I specialize in React Native, Node.js, and system architecture with over 1000 GitHub contributions this year."

  const GitHubUrl: string := "https://github.com/Rohit4997"

  const ResumeUrl: string :=
    "https://drive.google.com/file/d/1_8WRARGl3Z0GDLhiwMvXlwid174RFKQE/view?usp=sharing"

  /** What is said when no trigger matches. */
  const NotRecognized: string :=
    "Command not recognized. Say \"show commands\" to see available options."

  const Activated: string :=
    "Voice commands activated. Say \"show commands\" to see available options."

  const Deactivated: string := "Voice commands deactivated."

  /**
   * Row `i`'s trigger occurs in the (already normalised) transcript. The
   * source lowers the trigger first; `LoweredTriggerMatches` shows that
   * this changes nothing, every trigger being written in lower case.
   */
  predicate Matches(transcript: string, i: nat)
    requires i < |Commands|
    ensures Matches(transcript, i) ==> |Commands[i].trigger| <= |transcript|
    ensures Matches(transcript, i) ==> forall k :: 0 <= k < |Commands[i].trigger| ==> Commands[i].trigger[k] in transcript
  {
    Contains(transcript, Commands[i].trigger)
  }

  /** `commands.find` started at row `from`: the first matching row at or after it. */
  function FindFrom(transcript: string, from: nat): (r: Option<nat>)
    requires from <= |Commands|
    ensures r.Some? ==> from <= r.value < |Commands| && Matches(transcript, r.value)
    ensures r.Some? ==> forall j :: from <= j < r.value ==> !Matches(transcript, j)
    ensures r.None? <==> forall j :: from <= j < |Commands| ==> !Matches(transcript, j)
    decreases |Commands| - from
  {
    if from == |Commands| then None
    else if Matches(transcript, from) then Some(from)
    else FindFrom(transcript, from + 1)
  }

  /** The row `handleVoiceCommand` selects: the first, in declaration order, whose trigger occurs. */
  function FindCommand(transcript: string): (r: Option<nat>)
    ensures r.Some? ==> r.value < |Commands| && Matches(transcript, r.value)
    ensures r.Some? ==> forall j :: 0 <= j < r.value ==> !Matches(transcript, j)
    ensures r.None? <==> forall j :: 0 <= j < |Commands| ==> !Matches(transcript, j)
  {
    FindFrom(transcript, 0)
  }

  /** The effects of running `action`, given the ids of the sections on the page. */
  function ActionEffects(action: Action, present: set<string>): (r: seq<Effect>)
    ensures r == [] <==> action.ScrollTo? && action.section !in present
    ensures r != [] ==> r[|r| - 1].Speak?
  {
    match action
    case ScrollTo(id) =>
      if id in present then [ScrollIntoView(id), Speak("Navigating to " + id + " section")] else []
    case SpeakAbout => [Speak(Introduction)]
    case OpenGitHub => [OpenWindow(GitHubUrl, "_blank"), Speak("Opening GitHub profile")]
    case DownloadResume => [OpenWindow(ResumeUrl, "_blank"), Speak("Opening resume")]
  }

  /** The effects of one recognition result already normalised. */
  function Response(normalized: string, present: set<string>): (r: seq<Effect>)
    ensures |r| >= 1 && r[|r| - 1].Speak?
    ensures FindCommand(normalized).None? ==> r == [Speak(NotRecognized)]
    ensures FindCommand(normalized).Some? ==>
              r[..|r| - 1] == ActionEffects(Commands[FindCommand(normalized).value].action, present)
    ensures FindCommand(normalized).Some? ==>
              r[|r| - 1] == Speak("Executing: " + Commands[FindCommand(normalized).value].description)
  {
    match FindCommand(normalized)
    case Some(i) =>
      ActionEffects(Commands[i].action, present) + [Speak("Executing: " + Commands[i].description)]
    case None => [Speak(NotRecognized)]
  }

  /** How many windows a list of effects opens. */
  function Opened(effects: seq<Effect>): nat
  {
    if effects == [] then 0
    else (if effects[0].OpenWindow? then 1 else 0) + Opened(effects[1..])
  }

  /** Every trigger is written without capital letters. */
  lemma TriggersNoUpper(i: nat)
    requires i < |Commands|
    ensures NoUpper(Commands[i].trigger)
  {
    var t := Commands[i].trigger;
    if i == 0 { assert t == "show projects"; }
    else if i == 1 { assert t == "show skills"; }
    else if i == 2 { assert t == "show experience"; }
    else if i == 3 { assert t == "show contact"; }
    else if i == 4 { assert t == "go to top"; }
    else if i == 5 { assert t == "tell me about rohit"; }
    else if i == 6 { assert t == "show github"; }
    else { assert t == "download resume"; }
  }

  /** Every trigger is written in lower case, so lowering it changes nothing. */
  lemma TriggersLower(i: nat)
    requires i < |Commands|
    ensures Lower(Commands[i].trigger) == Commands[i].trigger
  {
    TriggersNoUpper(i);
    LowerNoUpper(Commands[i].trigger);
  }

  /** The source's test, with the trigger lowered, is `Matches`. */
  lemma LoweredTriggerMatches(transcript: string, i: nat)
    requires i < |Commands|
    ensures Contains(transcript, Lower(Commands[i].trigger)) <==> Matches(transcript, i)
  {
    TriggersLower(i);
  }

  /** A transcript in which none of the eight triggers occurs is not recognised. */
  lemma NoTriggerNotRecognized(t: string, present: set<string>)
    requires !Contains(t, "show projects") && !Contains(t, "show skills")
    requires !Contains(t, "show experience") && !Contains(t, "show contact")
    requires !Contains(t, "go to top") && !Contains(t, "tell me about rohit")
    requires !Contains(t, "show github") && !Contains(t, "download resume")
    ensures FindCommand(t) == None
    ensures Response(t, present) == [Speak(NotRecognized)]
  {
    forall j | 0 <= j < |Commands| ensures !Matches(t, j) {
      if j == 0 {} else if j == 1 {} else if j == 2 {} else if j == 3 {}
      else if j == 4 {} else if j == 5 {} else if j == 6 {} else {}
    }
  }

  /** The five navigation triggers scroll to projects, skills, experience, contact and hero. */
  lemma NavigationTargets(i: nat)
    requires i < 5
    ensures Commands[i].action == ScrollTo(["projects", "skills", "experience", "contact", "hero"][i])
  {
  }

  /** A scroll, and its "Navigating to" line, happen exactly when the section is on the page. */
  lemma ScrollOnlyIfPresent(id: string, present: set<string>)
    ensures ActionEffects(ScrollTo(id), present) != [] <==> id in present
    ensures id in present ==>
              ActionEffects(ScrollTo(id), present)[0] == ScrollIntoView(id)
    ensures id in present ==>
              ActionEffects(ScrollTo(id), present)[1] == Speak("Navigating to " + id + " section")
    ensures Opened(ActionEffects(ScrollTo(id), present)) == 0
  {
    var e := ActionEffects(ScrollTo(id), present);
    if id in present {
      assert e[1..][1..] == [];
      assert Opened(e[1..]) == 0;
    }
  }

  /** The two link rows open one window each, in a new browsing context, and speak once. */
  lemma LinksOpenOnce(present: set<string>)
    ensures ActionEffects(OpenGitHub, present)[0] == OpenWindow(GitHubUrl, "_blank")
    ensures ActionEffects(DownloadResume, present)[0] == OpenWindow(ResumeUrl, "_blank")
    ensures Opened(ActionEffects(OpenGitHub, present)) == 1
    ensures Opened(ActionEffects(DownloadResume, present)) == 1
  {
    var g := ActionEffects(OpenGitHub, present);
    assert g[1..][1..] == [];
    assert Opened(g[1..]) == 0;
    var d := ActionEffects(DownloadResume, present);
    assert d[1..][1..] == [];
    assert Opened(d[1..]) == 0;
  }

  /** A transcript with "show github" but none of the six triggers before it opens the profile. */
  lemma GitHubRowChosen(t: string, present: set<string>)
    requires !Contains(t, "show projects") && !Contains(t, "show skills")
    requires !Contains(t, "show experience") && !Contains(t, "show contact")
    requires !Contains(t, "go to top") && !Contains(t, "tell me about rohit")
    requires Contains(t, "show github")
    ensures FindCommand(t) == Some(6)
    ensures Response(t, present) ==
              [OpenWindow(GitHubUrl, "_blank"), Speak("Opening GitHub profile"),
               Speak("Executing: " + "Open GitHub profile")]
  {
    forall j | 0 <= j < 6 ensures !Matches(t, j) {
      if j == 0 {} else if j == 1 {} else if j == 2 {} else if j == 3 {} else if j == 4 {} else {}
    }
    assert Matches(t, 6);
    assert Commands[6] == VoiceCommand("show github", OpenGitHub, "Open GitHub profile");
  }

  /** A transcript with "download resume" and no other trigger opens the resume. */
  lemma ResumeRowChosen(t: string, present: set<string>)
    requires !Contains(t, "show projects") && !Contains(t, "show skills")
    requires !Contains(t, "show experience") && !Contains(t, "show contact")
    requires !Contains(t, "go to top") && !Contains(t, "tell me about rohit")
    requires !Contains(t, "show github") && Contains(t, "download resume")
    ensures FindCommand(t) == Some(7)
    ensures Response(t, present) ==
              [OpenWindow(ResumeUrl, "_blank"), Speak("Opening resume"),
               Speak("Executing: " + "Download resume")]
  {
    forall j | 0 <= j < 7 ensures !Matches(t, j) {
      if j == 0 {} else if j == 1 {} else if j == 2 {} else if j == 3 {}
      else if j == 4 {} else if j == 5 {} else {}
    }
    assert Matches(t, 7);
    assert Commands[7] == VoiceCommand("download resume", DownloadResume, "Download resume");
  }

  /** Of the triggers up to its own, only "show github" occurs in "show github". */
  lemma ShowGitHubTriggers()
    ensures !Contains("show github", "show projects") && !Contains("show github", "show skills")
    ensures !Contains("show github", "show experience") && !Contains("show github", "show contact")
    ensures !Contains("show github", "go to top") && !Contains("show github", "tell me about rohit")
    ensures Contains("show github", "show github")
  {
    var t := "show github";
    MissingChar(t, "show projects", 'p');
    MissingChar(t, "show skills", 'k');
    MissingChar(t, "show experience", 'e');
    MissingChar(t, "show contact", 'c');
    MissingChar(t, "go to top", 'p');
    MissingChar(t, "tell me about rohit", 'e');
    PrefixContained(t, t);
  }

  /** Saying "show github" opens the profile. */
  lemma ShowGitHubOpensProfile(present: set<string>)
    ensures FindCommand("show github") == Some(6)
    ensures Response("show github", present) ==
              [OpenWindow(GitHubUrl, "_blank"), Speak("Opening GitHub profile"),
               Speak("Executing: " + "Open GitHub profile")]
  {
    ShowGitHubTriggers();
    GitHubRowChosen("show github", present);
  }

  /** Of all the triggers, only "download resume" occurs in "download resume". */
  lemma DownloadResumeTriggers()
    ensures !Contains("download resume", "show projects") && !Contains("download resume", "show skills")
    ensures !Contains("download resume", "show experience") && !Contains("download resume", "show contact")
    ensures !Contains("download resume", "go to top") && !Contains("download resume", "tell me about rohit")
    ensures !Contains("download resume", "show github") && Contains("download resume", "download resume")
  {
    var t := "download resume";
    MissingChar(t, "show projects", 'h');
    MissingChar(t, "show skills", 'h');
    MissingChar(t, "show experience", 'h');
    MissingChar(t, "show contact", 'h');
    MissingChar(t, "go to top", 'g');
    MissingChar(t, "tell me about rohit", 'h');
    MissingChar(t, "show github", 'h');
    PrefixContained(t, t);
  }

  /** Saying "download resume" opens the resume. */
  lemma DownloadResumeOpensResume(present: set<string>)
    ensures FindCommand("download resume") == Some(7)
    ensures Response("download resume", present) ==
              [OpenWindow(ResumeUrl, "_blank"), Speak("Opening resume"),
               Speak("Executing: " + "Download resume")]
  {
    DownloadResumeTriggers();
    ResumeRowChosen("download resume", present);
  }

  /** With two triggers in one phrase the earlier row wins. */
  lemma EarlierRowWins()
    ensures Contains("show projects and show skills", "show skills")
    ensures FindCommand("show projects and show skills") == Some(0)
  {
    var t := "show projects and show skills";
    assert t == "show projects and " + "show skills";
    SuffixContained("show projects and ", "show skills");
    PrefixContained(t, "show projects");
    assert Matches(t, 0);
  }

  /** None of the four section triggers occurs in "show commands". */
  lemma ShowCommandsSkipsSections()
    ensures !Contains("show commands", "show projects") && !Contains("show commands", "show skills")
    ensures !Contains("show commands", "show experience") && !Contains("show commands", "show contact")
  {
    var t := "show commands";
    MissingChar(t, "show projects", 'p');
    MissingChar(t, "show skills", 'k');
    MissingChar(t, "show experience", 'e');
    MissingChar(t, "show contact", 't');
  }

  /** None of the other four triggers occurs in "show commands" either. */
  lemma ShowCommandsSkipsOthers()
    ensures !Contains("show commands", "go to top") && !Contains("show commands", "tell me about rohit")
    ensures !Contains("show commands", "show github") && !Contains("show commands", "download resume")
  {
    var t := "show commands";
    MissingChar(t, "go to top", 'g');
    MissingChar(t, "tell me about rohit", 't');
    MissingChar(t, "show github", 'g');
    MissingChar(t, "download resume", 'e');
  }

  /** The phrase the prompts suggest, "show commands", is no trigger: it is not recognised. */
  lemma ShowCommandsNotRecognized(present: set<string>)
    ensures FindCommand("show commands") == None
    ensures Response("show commands", present) == [Speak(NotRecognized)]
  {
    ShowCommandsSkipsSections();
    ShowCommandsSkipsOthers();
    NoTriggerNotRecognized("show commands", present);
  }

  /** The voice widget: its four state values, the recogniser's status and the effect log. */
  class Assistant {
    var isListening: bool
    var isEnabled: bool
    /** The last normalised transcript. */
    var lastCommand: string
    /** Whether the list of commands is shown. */
    var showCommands: bool
    /** The speech kit's own `listening` status. */
    var listening: bool
    /** Every call made into the page and the speech kit, oldest first. */
    var effects: seq<Effect>

    /** The first render: everything off, nothing said. */
    constructor ()
      ensures !isListening && !isEnabled && lastCommand == "" && !showCommands
      ensures !listening && effects == []
    {
      isListening := false;
      isEnabled := false;
      lastCommand := "";
      showCommands := false;
      listening := false;
      effects := [];
    }

    /** `speak`: one utterance is logged. */
    method Say(text: string)
      modifies this
      ensures effects == old(effects) + [Speak(text)]
      ensures isListening == old(isListening) && isEnabled == old(isEnabled)
      ensures lastCommand == old(lastCommand) && showCommands == old(showCommands)
      ensures listening == old(listening)
    {
      effects := effects + [Speak(text)];
    }

    /** `scrollToSection`: scrolls and announces only if the section is on the page. */
    method ScrollToSection(id: string, present: set<string>)
      modifies this
      ensures effects == old(effects) + ActionEffects(ScrollTo(id), present)
      ensures isListening == old(isListening) && isEnabled == old(isEnabled)
      ensures lastCommand == old(lastCommand) && showCommands == old(showCommands)
      ensures listening == old(listening)
    {
      if id in present {
        effects := effects + [ScrollIntoView(id)];
        Say("Navigating to " + id + " section");
      }
    }

    /** `openGitHub`: the profile in a new tab, then an acknowledgement. */
    method OpenGitHubProfile()
      modifies this
      ensures effects == old(effects) + ActionEffects(OpenGitHub, {})
      ensures isListening == old(isListening) && isEnabled == old(isEnabled)
      ensures lastCommand == old(lastCommand) && showCommands == old(showCommands)
      ensures listening == old(listening)
    {
      effects := effects + [OpenWindow(GitHubUrl, "_blank")];
      Say("Opening GitHub profile");
    }

    /** `downloadResume`: the resume in a new tab, then an acknowledgement. */
    method OpenResume()
      modifies this
      ensures effects == old(effects) + ActionEffects(DownloadResume, {})
      ensures isListening == old(isListening) && isEnabled == old(isEnabled)
      ensures lastCommand == old(lastCommand) && showCommands == old(showCommands)
      ensures listening == old(listening)
    {
      effects := effects + [OpenWindow(ResumeUrl, "_blank")];
      Say("Opening resume");
    }

    /** Runs one row's `action`. */
    method Run(action: Action, present: set<string>)
      modifies this
      ensures effects == old(effects) + ActionEffects(action, present)
      ensures isListening == old(isListening) && isEnabled == old(isEnabled)
      ensures lastCommand == old(lastCommand) && showCommands == old(showCommands)
      ensures listening == old(listening)
    {
      match action
      case ScrollTo(id) => ScrollToSection(id, present);
      case SpeakAbout => Say(Introduction);
      case OpenGitHub => OpenGitHubProfile();
      case DownloadResume => OpenResume();
    }

    /**
     * `handleVoiceCommand`: records the normalised transcript whether or not
     * it matches, then runs the first matching row and acknowledges it, or
     * says only that it was not recognised.
     */
    method HandleVoiceCommand(transcript: string, present: set<string>)
      modifies this
      ensures lastCommand == Normalize(transcript)
      ensures effects == old(effects) + Response(Normalize(transcript), present)
      ensures isListening == old(isListening) && isEnabled == old(isEnabled)
      ensures showCommands == old(showCommands) && listening == old(listening)
    {
      var normalized := Normalize(transcript);
      lastCommand := normalized;
      var matched := FindCommand(normalized);
      if matched.Some? {
        var command := Commands[matched.value];
        Run(command.action, present);
        Say("Executing: " + command.description);
      } else {
        Say(NotRecognized);
      }
    }

    /** `toggleListening`: stops a running recogniser, starts an idle one. */
    method ToggleListening()
      modifies this
      ensures isListening == !old(listening) && listening == !old(listening)
      ensures effects == old(effects) + [if old(listening) then Stop else Listen]
      ensures isEnabled == old(isEnabled) && lastCommand == old(lastCommand)
      ensures showCommands == old(showCommands)
    {
      if listening {
        effects := effects + [Stop];
        listening := false;
        isListening := false;
      } else {
        effects := effects + [Listen];
        listening := true;
        isListening := true;
      }
    }

    /**
     * `toggleVoiceCommands`: flips the switch and announces it; switching
     * off while the recogniser runs also stops it.
     */
    method ToggleVoiceCommands()
      modifies this
      ensures isEnabled == !old(isEnabled)
      ensures !old(isEnabled) ==>
                effects == old(effects) + [Speak(Activated)] &&
                isListening == old(isListening) && listening == old(listening)
      ensures old(isEnabled) && old(listening) ==>
                effects == old(effects) + [Speak(Deactivated), Stop] &&
                !isListening && !listening
      ensures old(isEnabled) && !old(listening) ==>
                effects == old(effects) + [Speak(Deactivated)] &&
                isListening == old(isListening) && !listening
      ensures lastCommand == old(lastCommand) && showCommands == old(showCommands)
    {
      var wasEnabled := isEnabled;
      isEnabled := !isEnabled;
      if !wasEnabled {
        Say(Activated);
      } else {
        Say(Deactivated);
        if listening {
          effects := effects + [Stop];
          listening := false;
          isListening := false;
        }
      }
    }

    /** The `?` button: shows or hides the list of commands. */
    method ToggleCommandsPanel()
      modifies this
      ensures showCommands == !old(showCommands)
      ensures effects == old(effects) && isListening == old(isListening)
      ensures isEnabled == old(isEnabled) && lastCommand == old(lastCommand)
      ensures listening == old(listening)
    {
      showCommands := !showCommands;
    }

    /** The recogniser stops by itself (end of speech); its status becomes false. */
    method RecognitionEnded()
      modifies this
      ensures !listening && isListening == old(isListening) && effects == old(effects)
      ensures isEnabled == old(isEnabled) && lastCommand == old(lastCommand)
      ensures showCommands == old(showCommands)
    {
      listening := false;
    }

    /** The effect on `listening`: `isListening` follows the recogniser's status. */
    method SyncListening()
      modifies this
      ensures isListening == listening && listening == old(listening)
      ensures effects == old(effects) && isEnabled == old(isEnabled)
      ensures lastCommand == old(lastCommand) && showCommands == old(showCommands)
    {
      isListening := listening;
    }
  }
}
