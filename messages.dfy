/** The affirmation texts: the catalogue of five petal messages, their
    personalised variants, and the bonus message of the flower centre. */
module MessageCatalog {

  /** The catalogue texts of petals 0, 2 and 4 after their opening word
      ("You ", "I ", "I "). script.js spells each personalised variant out in
      full; after the opening word it repeats these texts word for word. */
  const Message0Rest: string := "carry a kind of purity that doesn't need to prove itself. It radiates from you quietly, touching everything around you with a grace that asks for nothing in return."
  const Message2Rest: string := "admire how your heart chooses what is right, even when it's hard. You navigate this world with a moral compass that never wavers, and that integrity is something truly precious."
  const Message4Rest: string := "hold you with respect, care, and a love that never crosses its bounds. You are cherished in a way that honors your wholeness, your autonomy, and the sacred space you occupy in this world."

  /** The five petal messages, in petal order (script.js, `messages`). */
  const Messages: seq<string> := [
    "You " + Message0Rest,
    "There is a gentleness in you that the world has never managed to stain. Despite everything you've faced, you remain soft where others have hardened, and that is a rare and beautiful strength.",
    "I " + Message2Rest,
    "Your presence alone makes things feel more honest, more clean. You bring clarity to confusion and peace to chaos, simply by being exactly who you are.",
    "I " + Message4Rest
  ]

  /** The bonus message of the flower centre after its opening word "You ";
      both forms in `showSecretMessage` repeat it word for word. */
  const SecretRest: string := "are a garden of endless beauty, and I am grateful to witness your bloom. Every petal of your being unfolds with such grace, and the world is more beautiful because you're in it."

  /** The bonus message of the flower centre when no name is set. */
  const SecretGeneric: string := "You " + SecretRest

  /** The initial letter of `s` in lower case, when it is an ASCII capital. */
  function LowerInitial(s: string): (r: string)
    ensures |r| == |s| && (s != [] ==> r[1..] == s[1..])
    ensures s != [] && 'A' <= s[0] <= 'Z' ==> r[0] as int == s[0] as int + 32
    ensures s != [] && !('A' <= s[0] <= 'Z') ==> r == s
  {
    if s != [] && 'A' <= s[0] <= 'Z' then [(s[0] as int + 32) as char] + s[1..] else s
  }

  /** A sentence as it reads after a name and a comma: its first letter in
      lower case, except where it opens with the pronoun "I". This is the
      rule every personalised text of the flower follows. */
  function AfterAddress(sentence: string): (r: string)
    ensures |r| == |sentence| && (sentence != [] ==> r[1..] == sentence[1..])
  {
    if |sentence| >= 2 && sentence[..2] == "I " then sentence else LowerInitial(sentence)
  }

  /** How each catalogue text opening with "You " or "I " reads after the
      address: "You" becomes "you", "I" stays. */
  lemma AddressForms()
    ensures AfterAddress(Messages[0]) == "you " + Message0Rest
    ensures AfterAddress(Messages[2]) == Messages[2]
    ensures AfterAddress(Messages[4]) == Messages[4]
    ensures AfterAddress(SecretGeneric) == "you " + SecretRest
  {
    AddressOfYou(Message0Rest);
    AddressOfYou(SecretRest);
    assert Messages[2][..2] == "I ";
    assert Messages[4][..2] == "I ";
  }

  lemma AddressOfYou(rest: string)
    ensures AfterAddress("You " + rest) == "you " + rest
  {
    var s := "You " + rest;
    assert s[..2] == "Yo";
    assert s[1..] == "ou " + rest;
  }

  /** The petals whose message names the visitor: 0, 2 and 4, and only once
      a non-empty name has been planted (`if (userName)` in script.js). */
  predicate Personalizes(index: nat, userName: string)
  {
    userName != [] && (index == 0 || index == 2 || index == 4)
  }

  /** `getPersonalizedMessage`: the catalogue text of the petal, or, for a
      personalising petal, the visitor's name, a comma, and the catalogue
      text continued after the address. */
  function GetPersonalizedMessage(index: nat, userName: string): (r: string)
    requires index < |Messages|
    ensures !Personalizes(index, userName) ==> r == Messages[index]
    ensures Personalizes(index, userName) ==> r == userName + ", " + AfterAddress(Messages[index])
  {
    AddressForms();
    var message := Messages[index];
    if userName != [] then
      if index == 0 then userName + ", you " + Message0Rest
      else if index == 2 then userName + ", I " + Message2Rest
      else if index == 4 then userName + ", I " + Message4Rest
      else message
    else message
  }

  /** The text shown on the third click of the flower centre: the generic
      bonus message without a name, otherwise the name, a comma, and the
      same message continued after the address. */
  function SecretMessage(userName: string): (r: string)
    ensures userName == [] ==> r == SecretGeneric
    ensures userName != [] ==> r == userName + ", " + AfterAddress(SecretGeneric)
  {
    AddressForms();
    if userName != [] then userName + ", you " + SecretRest else SecretGeneric
  }

  /** A petal shows its catalogue text verbatim exactly when it does not
      personalise. */
  lemma MessageIsGenericIff(index: nat, userName: string)
    requires index < |Messages|
    ensures GetPersonalizedMessage(index, userName) == Messages[index] <==> !Personalizes(index, userName)
  {
    if Personalizes(index, userName) {
      assert |GetPersonalizedMessage(index, userName)| > |Messages[index]|;
    }
  }

  /** Whatever the name, a petal message ends with its catalogue text from the
      second character on: personalising changes only the opening. */
  lemma MessageKeepsClause(index: nat, userName: string)
    requires index < |Messages|
    ensures var r := GetPersonalizedMessage(index, userName);
      |r| >= |Messages[index]| && r[|r| - |Messages[index]| + 1..] == Messages[index][1..]
  {
    var r := GetPersonalizedMessage(index, userName);
    var m := Messages[index];
    if Personalizes(index, userName) {
      var prefix := userName + ", ";
      var tail := AfterAddress(m);
      assert r == prefix + tail;
      assert r[|r| - |m| + 1..] == tail[1..];
    }
  }

  /** A personalised petal message opens with the name followed by a comma,
      so the name can be read back from it. */
  lemma MessageOpensWithName(index: nat, userName: string)
    requires index < |Messages| && Personalizes(index, userName)
    ensures var r := GetPersonalizedMessage(index, userName);
      |r| > |userName| + 1 && r[..|userName|] == userName && r[|userName|..|userName| + 2] == ", "
  {
    var r := GetPersonalizedMessage(index, userName);
    assert r == userName + (", " + AfterAddress(Messages[index]));
  }

  /** The bonus message is the generic one exactly when no name is set, and
      always ends with the generic text from its second character on. */
  lemma SecretIsGenericIff(userName: string)
    ensures SecretMessage(userName) == SecretGeneric <==> userName == []
    ensures var r := SecretMessage(userName);
      |r| >= |SecretGeneric| && r[|r| - |SecretGeneric| + 1..] == SecretGeneric[1..]
  {
    var r := SecretMessage(userName);
    if userName != [] {
      assert |r| > |SecretGeneric|;
      assert r[|r| - |SecretGeneric| + 1..] == AfterAddress(SecretGeneric)[1..];
    }
  }
}
