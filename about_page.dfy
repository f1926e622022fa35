/**
 * The about page's data selection: each of the team, values and milestones
 * lists is the translated array when it looks right and the built-in
 * defaults otherwise (or when anything throws); the team grid leaves out the
 * founder; a card's initials come from the first two words of the name.
 */
module AboutPage {
  import opened Lists
  import opened Text

  /** The values a translation lookup with `returnObjects` can produce. */
  datatype JsValue =
    | JsUndefined
    | JsNull
    | JsBool(b: bool)
    | JsNumber(n: int)
    | JsString(s: string)
    | JsArray(items: seq<JsValue>)
    | JsObject(props: map<string, JsValue>)

  /** A computation that returns a value or throws. */
  datatype Outcome<T> = Threw | Ok(value: T)

  /**
   * The `in` operator with a non-numeric key other than `length`: an
   * object answers by its own keys, an array never has the key, and a
   * primitive on the right throws a `TypeError`.
   */
  function HasKey(key: string, v: JsValue): (r: Outcome<bool>)
    requires key != "length"
    ensures r.Threw? <==> !v.JsObject? && !v.JsArray?
    ensures r == Ok(true) <==> v.JsObject? && key in v.props
  {
    match v
    case JsObject(props) => Ok(key in props)
    case JsArray(_) => Ok(false)
    case _ => Threw
  }

  /** A property read: missing properties are `undefined`, and reading from `null` or `undefined` throws. */
  function Get(v: JsValue, key: string): (r: Outcome<JsValue>)
    ensures r.Threw? <==> v == JsNull || v == JsUndefined
    ensures v.JsObject? && key in v.props ==> r == Ok(v.props[key])
  {
    match v
    case JsNull => Threw
    case JsUndefined => Threw
    case JsObject(props) => Ok(if key in props then props[key] else JsUndefined)
    case _ => Ok(JsUndefined)
  }

  /** The test of the getters: an array, non-empty, whose first element has the key. */
  predicate UsesTranslation(lookup: Outcome<JsValue>, key: string)
    requires key != "length"
  {
    lookup.Ok? && lookup.value.JsArray? && |lookup.value.items| > 0 &&
    HasKey(key, lookup.value.items[0]) == Ok(true)
  }

  /**
   * The shared shape of `getTeamMembers`, `getValues` and `getMilestones`:
   * the lookup either throws or returns a value; the test either throws,
   * fails or passes. Only a passing test keeps the translation.
   */
  function Choose(lookup: Outcome<JsValue>, key: string, defaults: seq<JsValue>): (r: seq<JsValue>)
    requires key != "length"
    ensures UsesTranslation(lookup, key) ==> r == lookup.value.items
    ensures !UsesTranslation(lookup, key) ==> r == defaults
    ensures defaults != [] ==> r != []
  {
    match lookup
    case Threw => defaults
    case Ok(translated) =>
      if !translated.JsArray? || |translated.items| == 0 then defaults
      else match HasKey(key, translated.items[0])
        case Threw => defaults
        case Ok(found) => if found then translated.items else defaults
  }

  /** A first element that is a primitive makes the test throw, and the defaults are used. */
  lemma PrimitiveFirstElementGivesDefaults(items: seq<JsValue>, key: string, defaults: seq<JsValue>)
    requires key != "length" && |items| > 0 && !items[0].JsObject? && !items[0].JsArray?
    ensures Choose(Ok(JsArray(items)), key, defaults) == defaults
  {
  }

  /** A missing translation comes back as its key, a string, and the defaults are used. */
  lemma MissingKeyGivesDefaults(translationKey: string, key: string, defaults: seq<JsValue>)
    requires key != "length"
    ensures Choose(Ok(JsString(translationKey)), key, defaults) == defaults
  {
  }

  function Member(name: string, role: string, bio: string, image: string): JsValue {
    JsObject(map["name" := JsString(name), "role" := JsString(role), "bio" := JsString(bio), "image" := JsString(image)])
  }

  function ValueItem(title: string, description: string): JsValue {
    JsObject(map["title" := JsString(title), "description" := JsString(description)])
  }

  function Milestone(year: string, title: string, description: string): JsValue {
    JsObject(map["year" := JsString(year), "title" := JsString(title), "description" := JsString(description)])
  }

  /** The founder, whom the team grid does not show. */
  const Founder := "Denis Kreuzer"

  /** The default team; the long biographies are display text and left out. */
  const DefaultTeam: seq<JsValue> := [
    Member(Founder, "Founder & CEO",
      "Multidisciplinary Full-Stack Developer & Product Strategist with over 15 years of experience.",
      "/images/team/denis.jpg"),
    Member("Sarah Berger", "Chief Experience Officer",
      "Sarah leads our user experience initiatives with over 10 years in digital product development.",
      "/images/team/sarah.jpg"),
    Member("Markus Weber", "Technical Director",
      "Markus is an experienced developer focused on creating sustainable open-source solutions.",
      "/images/team/markus.jpg"),
    Member("Jana Schmidt", "Design & UX Lead",
      "Jana combines user-friendly design with a deep understanding of diverse user needs across generations.",
      "/images/team/jana.jpg"),
    Member("Thomas Müller", "Partnerships & Community",
      "Thomas builds bridges between different stakeholders and ensures our solutions reach those who need them most.",
      "/images/team/thomas.jpg")
  ]

  const DefaultValues: seq<JsValue> := [
    ValueItem("Digital Self-Determination", "We believe that people and businesses should maintain control over their digital presence."),
    ValueItem("Open Technologies", "We rely on open source and open standards to avoid dependencies."),
    ValueItem("Human Support", "We offer real human support instead of automated systems."),
    ValueItem("Fair Business Models", "We reject hidden fees and data collection.")
  ]

  const DefaultMilestones: seq<JsValue> := [
    Milestone("2022", "The Idea Emerges", "From frustration over increasing platform dependency, the idea for Fork:it is born."),
    Milestone("2023", "Research Phase", "Interviews with affected businesses, research on existing alternatives."),
    Milestone("2023", "Manifest 1.0", "The first manifest for digital independence is published."),
    Milestone("2024", "Official Founding", "Fork:it is established as a company focused on digital self-determination."),
    Milestone("2024", "First Successes", "The first independent websites and booking systems go live.")
  ]

  /** `getTeamMembers`: the test looks for `name`. */
  function TeamMembers(lookup: Outcome<JsValue>): (r: seq<JsValue>)
    ensures r != []
    ensures r == if UsesTranslation(lookup, "name") then lookup.value.items else DefaultTeam
  {
    Choose(lookup, "name", DefaultTeam)
  }

  /** `getValues`: the test looks for `title`. */
  function Values(lookup: Outcome<JsValue>): (r: seq<JsValue>)
    ensures r != []
    ensures r == if UsesTranslation(lookup, "title") then lookup.value.items else DefaultValues
  {
    Choose(lookup, "title", DefaultValues)
  }

  /** `getMilestones`: the test looks for `year`. */
  function Milestones(lookup: Outcome<JsValue>): (r: seq<JsValue>)
    ensures r != []
    ensures r == if UsesTranslation(lookup, "year") then lookup.value.items else DefaultMilestones
  {
    Choose(lookup, "year", DefaultMilestones)
  }

  /** A translated team is used as it is: only its first element is checked. */
  lemma OnlyFirstElementChecked(first: JsValue, rest: seq<JsValue>)
    requires first.JsObject? && "name" in first.props
    ensures TeamMembers(Ok(JsArray([first] + rest))) == [first] + rest
  {
  }

  /** A value list is not a team list: the tests look for different keys. */
  lemma ValuesAreNotATeam()
    ensures TeamMembers(Ok(JsArray(DefaultValues))) == DefaultTeam
    ensures Values(Ok(JsArray(DefaultValues))) == DefaultValues
  {
    assert "name" !in DefaultValues[0].props;
  }

  /** Whether a member is the founder: an object whose `name` is exactly the founder's name. */
  function IsFounder(m: JsValue): bool {
    Get(m, "name") == Ok(JsString(Founder))
  }

  /** `teamMembers.filter(member => member.name !== "Denis Kreuzer")`. */
  function TeamGrid(members: seq<JsValue>): (r: seq<JsValue>)
    ensures |r| <= |members|
  {
    Filter(members, (m: JsValue) => !IsFounder(m))
  }

  /** The grid shows every member but the founder, and no one else. */
  lemma TeamGridMembers(members: seq<JsValue>, m: JsValue)
    ensures m in TeamGrid(members) <==> m in members && !IsFounder(m)
  {
    FilterMembers(members, (m: JsValue) => !IsFounder(m));
  }

  /** With the default team, the grid is the last four members, in order. */
  lemma DefaultGrid()
    ensures TeamGrid(DefaultTeam) == DefaultTeam[1..]
  {
    var p := (m: JsValue) => !IsFounder(m);
    assert DefaultTeam == [DefaultTeam[0]] + DefaultTeam[1..];
    FilterConcat([DefaultTeam[0]], DefaultTeam[1..], p);
    assert !p(DefaultTeam[0]);
    FilterNone([DefaultTeam[0]], p);
    forall i | 0 <= i < |DefaultTeam[1..]|
      ensures p(DefaultTeam[1..][i])
    {
      assert DefaultTeam[1..][i] == DefaultTeam[i + 1];
    }
    FilterAll(DefaultTeam[1..], p);
  }

  /**
   * `{name.split(' ')[0][0]}{name.split(' ')[1][0]}`: the first characters
   * of the first two words. A missing second word throws; an empty word
   * (from a leading or doubled space) contributes `undefined`, which renders
   * as nothing.
   */
  function Initials(name: string): (r: Outcome<string>)
    ensures r.Threw? <==> |Split(name, " ")| < 2
    ensures r.Ok? ==> |r.value| <= 2
  {
    var words := Split(name, " ");
    if |words| < 2 then Threw
    else Ok(FirstChar(words[0]) + FirstChar(words[1]))
  }

  /** `word[0]` rendered: the first character, or nothing for an empty word. */
  function FirstChar(word: string): (r: string)
    ensures |r| <= 1
    ensures word != [] ==> r == [word[0]]
  {
    if word == [] then [] else [word[0]]
  }

  /** A card's initials: from the name when it is a string; `split` on anything else throws. */
  function MemberInitials(m: JsValue): Outcome<string> {
    match Get(m, "name")
    case Ok(JsString(name)) => Initials(name)
    case _ => Threw
  }

  /** A name of two words separated by one space gives their two initials. */
  lemma {:induction false} TwoWordInitials(first: string, last: string)
    requires first != [] && last != []
    requires forall i :: 0 <= i < |first| ==> first[i] != ' '
    requires forall i :: 0 <= i < |last| ==> last[i] != ' '
    ensures Initials(first + " " + last) == Ok([first[0], last[0]])
  {
    SplitWordThenRest(first, last);
    SplitSingleWord(last);
    var words := Split(first + " " + last, " ");
    assert words == [first, last];
    assert FirstChar(words[0]) + FirstChar(words[1]) == [first[0]] + [last[0]] == [first[0], last[0]];
    assert Initials(first + " " + last) == Ok(FirstChar(words[0]) + FirstChar(words[1]));
  }

  /** Splitting a word, a space and a word-free text gives the word first and the rest after. */
  lemma {:induction false} SplitWordThenRest(word: string, rest: string)
    requires forall i :: 0 <= i < |word| ==> word[i] != ' '
    ensures Split(word + " " + rest, " ") == [word] + Split(rest, " ")
    decreases |word|
  {
    var s := word + " " + rest;
    if word == [] {
      assert s[..1] == " " && s[1..] == rest;
    } else {
      assert s[0] == word[0] && s[..1] == [s[0]];
      assert s[1..] == word[1..] + " " + rest;
      SplitWordThenRest(word[1..], rest);
      assert [word[0]] + word[1..] == word;
    }
  }

  /** A text without spaces splits into itself. */
  lemma {:induction false} SplitSingleWord(word: string)
    requires forall i :: 0 <= i < |word| ==> word[i] != ' '
    ensures Split(word, " ") == [word]
    decreases |word|
  {
    if |word| >= 1 {
      assert word[..1] == [word[0]];
      SplitSingleWord(word[1..]);
      assert [word[0]] + word[1..] == word;
    }
  }

  /** A one-word name makes the initials throw. */
  lemma OneWordThrows(word: string)
    requires forall i :: 0 <= i < |word| ==> word[i] != ' '
    ensures Initials(word).Threw?
  {
    SplitSingleWord(word);
  }

  /** A member whose name is two words gets their two initials on the card. */
  lemma MemberTwoWordInitials(first: string, last: string, role: string, bio: string, image: string)
    requires first != [] && last != []
    requires forall i :: 0 <= i < |first| ==> first[i] != ' '
    requires forall i :: 0 <= i < |last| ==> last[i] != ' '
    ensures MemberInitials(Member(first + " " + last, role, bio, image)) == Ok([first[0], last[0]])
  {
    TwoWordInitials(first, last);
  }

  /** The first member the default grid shows gets the initials "SB". */
  lemma SarahBergerInitials()
    ensures MemberInitials(DefaultTeam[1]) == Ok("SB")
  {
    var name := "Sarah" + " " + "Berger";
    assert |name| == 12 && forall i :: 0 <= i < 12 ==> name[i] == "Sarah Berger"[i];
    assert name == "Sarah Berger";
    assert DefaultTeam[1] == Member(name, "Chief Experience Officer",
      "Sarah leads our user experience initiatives with over 10 years in digital product development.",
      "/images/team/sarah.jpg");
    MemberTwoWordInitials("Sarah", "Berger", "Chief Experience Officer",
      "Sarah leads our user experience initiatives with over 10 years in digital product development.",
      "/images/team/sarah.jpg");
  }
}
