/** The session state of the flower page: the planted name, the latch that
    hides the prompt on the first petal click, and the click counter of the
    flower centre, with the effects each handler has on the page. */
module GardenSession {
  import opened NameInput
  import opened MessageCatalog

  /** What one submission of the name field did: the input shook, or the
      garden transition started with the sanitised name. */
  datatype PlantOutcome = Shaken | Planted(name: string)

  /** Number of clicks on the flower centre that reveal the bonus message. */
  const SecretClicks: nat := 3

  class Session {
    // The module-level variables of script.js.
    var userName: string
    var firstPetalClicked: bool
    var centerClickCount: int

    // What the handlers do to the page, with the display delays collapsed:
    // the text of the message box, and how often `hidePrompt`,
    // `showSecretMessage`, `shakeInput` and `transitionToGarden` ran.
    var messageText: string
    var promptHides: nat
    var secretShows: nat
    var shakes: nat
    var gardenTransitions: nat

    // How many times the petal and centre handlers ran this session.
    ghost var petalClicks: nat
    ghost var centerClicks: nat

    /** The session invariant: the name is always a sanitised one, the latch
        is set exactly once a petal has been clicked and the prompt was hidden
        exactly once then, and after n centre clicks the counter is n mod 3
        and the bonus message has been shown n / 3 times. */
    ghost predicate Valid()
      reads this
    {
      |userName| <= MaxNameLength && FreeOfAngleBrackets(userName)
      && firstPetalClicked == (petalClicks > 0)
      && promptHides == (if petalClicks > 0 then 1 else 0)
      && 0 <= centerClickCount < SecretClicks
      && centerClickCount == centerClicks % SecretClicks
      && secretShows == centerClicks / SecretClicks
    }

    /** The state at page load. */
    constructor ()
      ensures Valid()
      ensures userName == [] && !firstPetalClicked && centerClickCount == 0
      ensures messageText == [] && promptHides == 0 && secretShows == 0
      ensures shakes == 0 && gardenTransitions == 0
      ensures petalClicks == 0 && centerClicks == 0
    {
      userName := [];
      firstPetalClicked := false;
      centerClickCount := 0;
      messageText := [];
      promptHides, secretShows, shakes, gardenTransitions := 0, 0, 0, 0;
      petalClicks, centerClicks := 0, 0;
    }

    /** `plant`, given the current value of the name field. An input that
        trims to nothing only shakes the field; any other input replaces the
        name by the sanitised trimmed input — which may be empty, as for
        `"<>"` — and starts the garden transition. Nothing prevents a second
        planting while the first transition is still running. */
    method Plant(raw: string) returns (outcome: PlantOutcome)
      requires Valid()
      modifies this`userName, this`shakes, this`gardenTransitions
      ensures Valid()
      ensures outcome == Shaken <==> AllTrimmable(raw)
      ensures outcome == Shaken ==>
        userName == old(userName) && shakes == old(shakes) + 1
        && gardenTransitions == old(gardenTransitions)
      ensures outcome != Shaken ==>
        outcome == Planted(userName) && userName == SanitizeName(Trim(raw))
        && shakes == old(shakes) && gardenTransitions == old(gardenTransitions) + 1
    {
      var name := Trim(raw);
      if name == [] {
        shakes := shakes + 1;
        return Shaken;
      }
      userName := SanitizeName(name);
      gardenTransitions := gardenTransitions + 1;
      outcome := Planted(userName);
    }

    /** `handlePetalClick` for petal `index`: the prompt is hidden on the
        first petal click of the session only, the latch is set for good, and
        the message box shows the petal's message for the current name. */
    method PetalClick(index: nat) returns (hidPrompt: bool, text: string)
      requires Valid() && index < |Messages|
      modifies this`firstPetalClicked, this`promptHides, this`messageText, this`petalClicks
      ensures Valid()
      ensures petalClicks == old(petalClicks) + 1 && firstPetalClicked
      ensures hidPrompt <==> old(petalClicks) == 0
      ensures promptHides == old(promptHides) + (if hidPrompt then 1 else 0)
      ensures text == GetPersonalizedMessage(index, userName) && messageText == text
    {
      hidPrompt := !firstPetalClicked;
      if !firstPetalClicked {
        promptHides := promptHides + 1;
        firstPetalClicked := true;
      }
      petalClicks := petalClicks + 1;
      text := GetPersonalizedMessage(index, userName);
      messageText := text;
    }

    /** `handleCenterClick`: every third click of the session shows the
        bonus message and resets the counter; the other clicks only count. */
    method CenterClick() returns (secretShown: bool)
      requires Valid()
      modifies this`centerClickCount, this`secretShows, this`messageText, this`centerClicks
      ensures Valid()
      ensures centerClicks == old(centerClicks) + 1
      ensures secretShown <==> centerClicks % SecretClicks == 0
      ensures secretShown <==> old(centerClickCount) == SecretClicks - 1
      ensures secretShows == old(secretShows) + (if secretShown then 1 else 0)
      ensures messageText == if secretShown then SecretMessage(userName) else old(messageText)
    {
      centerClickCount := centerClickCount + 1;
      centerClicks := centerClicks + 1;
      secretShown := centerClickCount == SecretClicks;
      if secretShown {
        messageText := SecretMessage(userName);
        secretShows := secretShows + 1;
        centerClickCount := 0;
      }
    }
  }

  /** A blank submission only shakes the field. */
  method BlankWalkthrough()
  {
    var s := new Session();
    assert AllTrimmable("   ");
    var o := s.Plant("   ");
    assert o == Shaken && s.userName == [] && s.gardenTransitions == 0;
  }

  lemma TrimPaddedName()
    ensures Trim("  Amy  ") == "Amy"
  {
    var s := "  Amy  ";
    assert IsTrimmable(s[0]) && IsTrimmable(s[1]) && !IsTrimmable(s[2]);
    assert TrimStart(s[2..]) == s[2..];
    assert TrimStart(s) == "Amy  ";
    var t := "Amy  ";
    assert IsTrimmable(t[4]) && IsTrimmable(t[3]) && !IsTrimmable(t[2]);
    assert TrimEnd(t[..3]) == "Amy";
  }

  lemma SanitizePlainName()
    ensures SanitizeName("Amy") == "Amy"
  {
    var s := "Amy";
    assert forall i | 0 <= i < |s| :: s[i] in {'A', 'm', 'y'};
    SanitizeFixedIff(s);
  }

  lemma SanitizeBracketsOnly()
    ensures Trim("<>") == "<>" && SanitizeName("<>") == []
  {
    var s := "<>";
    assert !IsTrimmable(s[0]) && !IsTrimmable(s[1]);
    assert TrimStart(s) == s && TrimEnd(s) == s;
    assert StripAngleBrackets(s[1..]) == [];
  }

  /** A padded name is planted trimmed; a later name of angle brackets only
      passes the emptiness check, is planted as the empty name, and replaces
      the earlier name. */
  method ReplantWalkthrough()
  {
    var s := new Session();
    TrimPaddedName();
    SanitizePlainName();
    var o := s.Plant("  Amy  ");
    assert o == Planted("Amy") && s.userName == "Amy";

    SanitizeBracketsOnly();
    o := s.Plant("<>");
    assert o == Planted([]) && s.userName == [] && s.gardenTransitions == 2;
  }

  /** Only the first petal click hides the prompt; petal 1 is never
      personalised, petal 0 opens with the name. */
  method PetalWalkthrough()
  {
    var s := new Session();
    assert TrimStart("Amy") == "Amy" && TrimEnd("Amy") == "Amy";
    var o := s.Plant("Amy");
    var hid, text := s.PetalClick(1);
    assert hid && text == Messages[1];
    hid, text := s.PetalClick(0);
    MessageOpensWithName(0, "Amy");
    assert !hid && text[..4] == "Amy,";
  }

  /** Two centre clicks show nothing; the third shows the bonus message and
      resets the counter. */
  method CenterWalkthrough()
  {
    var s := new Session();
    var shown := s.CenterClick();
    assert !shown;
    shown := s.CenterClick();
    assert !shown;
    shown := s.CenterClick();
    assert shown && s.centerClickCount == 0 && s.messageText == SecretMessage([]);
  }
}
