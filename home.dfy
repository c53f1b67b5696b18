/** The home page's spoken replies, one per kind of voice command. */
module HomeReplies {
  import opened Base
  import opened Text

  datatype HomeCommand = ShowProducts | ShowDeals | Help | AlreadyHome | Contact | Unrecognized

  /** The sentences the page speaks; `name` is the greeting name, `command` the transcript. */
  datatype Utterance =
    | ProductsGreeting(name: string)
    | ProductsFollowUp
    | DealsReply
    | HelpReply(name: string)
    | HomeReply(name: string)
    | ContactReply
    | EchoReply(command: string, name: string)

  function EchoTail(name: string): string
  {
    ". I can help you navigate to products, find deals, or answer questions. What would you like to do, " + name + "?"
  }

  /** The text of each sentence. */
  function Spoken(u: Utterance): string
  {
    match u
    case ProductsGreeting(name) =>
      "Showing you all the products, " + name + "! Please wait for a while while I prepare everything for you."
    case ProductsFollowUp =>
      "Perfect! Now navigating you to the products page where you'll find all our amazing products."
    case DealsReply =>
      "I'll show you the best deals available today! Scroll down to see our amazing offers."
    case HelpReply(name) =>
      "I can help you browse products, find deals, navigate through the website, and assist with your shopping needs. Just ask me what you're looking for, "
      + name + "!"
    case HomeReply(name) =>
      "You're already on the home page, " + name + "! How can I help you today?"
    case ContactReply =>
      "I can help you with general questions, but for specific support, please visit our contact page. You can find it in the navigation menu."
    case EchoReply(command, name) =>
      "I heard you say: " + command + EchoTail(name)
  }

  /** What the page does for a command: the spoken replies, and the route it navigates to. */
  datatype Reaction = Reaction(said: seq<Utterance>, navigateTo: Option<string>)

  /** The reply to a command of kind `k`, greeting the user as `name`. */
  function Respond(k: HomeCommand, command: string, name: string): (r: Reaction)
    ensures r.navigateTo.Some? <==> k == ShowProducts
    ensures r.navigateTo.Some? ==> r.navigateTo.value == "/products" && |r.said| == 2
    ensures r.navigateTo.None? ==> |r.said| == 1
    ensures k == Unrecognized ==> r.said == [EchoReply(command, name)]
  {
    match k
    case ShowProducts => Reaction([ProductsGreeting(name), ProductsFollowUp], Some("/products"))
    case ShowDeals => Reaction([DealsReply], None)
    case Help => Reaction([HelpReply(name)], None)
    case AlreadyHome => Reaction([HomeReply(name)], None)
    case Contact => Reaction([ContactReply], None)
    case Unrecognized => Reaction([EchoReply(command, name)], None)
  }

  /** An unrecognised command is echoed back as it was heard, before lower-casing. */
  lemma EchoRepeatsCommand(command: string, name: string)
    ensures Contains(Spoken(EchoReply(command, name)), command)
  {
    var pre := "I heard you say: ";
    var said := Spoken(EchoReply(command, name));
    assert said == pre + command + EchoTail(name);
    assert said[|pre|..|pre| + |command|] == command;
    assert OccursAt(said, command, |pre|);
  }
}

/** The home page's voice commands: phrase groups tried in order on the lower-cased
    transcript, each a substring test. */
module Home {
  import opened Base
  import opened Text
  import opened Entities
  import opened Profile
  import opened HomeReplies

  /** The twenty product phrasings, in rows of five. */
  const ProductRow0: seq<string> := ["products", "show products", "show me the products", "show me products", "take me to products"]
  const ProductRow1: seq<string> := ["go to products", "browse products", "view products", "see products", "display products"]
  const ProductRow2: seq<string> := ["open products", "navigate me to products", "navigate to products",
                                     "take me to the products", "go to the products"]
  const ProductRow3: seq<string> := ["show me all products", "display all products", "let me see the products",
                                     "i want to see products", "i want to browse products"]
  const ProductPhrases: seq<string> := ProductRow0 + ProductRow1 + ProductRow2 + ProductRow3
  const DealPhrases: seq<string> := ["deals", "best deals", "show deals", "today deals", "special offers"]
  const HelpPhrases: seq<string> := ["help", "what can you do", "your capabilities", "how can you help"]
  const HomePhrases: seq<string> := ["home", "go home", "back to home"]
  const ContactPhrases: seq<string> := ["contact", "support", "help me"]

  /** The text includes at least one of the phrases. */
  predicate MentionsAny(text: string, phrases: seq<string>)
  {
    exists i :: 0 <= i < |phrases| && Contains(text, phrases[i])
  }

  /** The `if`/`else if` chain of `handleTranscript`. */
  function Classify(command: string): (k: HomeCommand)
    ensures k == ShowProducts <==> MentionsAny(ToLower(command), ProductPhrases)
    ensures k == Unrecognized ==> !MentionsAny(ToLower(command), ContactPhrases)
  {
    var l := ToLower(command);
    if MentionsAny(l, ProductPhrases) then ShowProducts
    else if MentionsAny(l, DealPhrases) then ShowDeals
    else if MentionsAny(l, HelpPhrases) then Help
    else if MentionsAny(l, HomePhrases) then AlreadyHome
    else if MentionsAny(l, ContactPhrases) then Contact
    else Unrecognized
  }

  /** Every phrase of the list includes `key`. */
  predicate AllInclude(phrases: seq<string>, key: string)
  {
    forall i :: 0 <= i < |phrases| ==> Contains(phrases[i], key)
  }

  /** A phrase group whose phrases all include one of them, `key`, matches exactly the
      texts that include `key`. */
  lemma MentionsReduce(text: string, phrases: seq<string>, key: string)
    requires key in phrases && AllInclude(phrases, key)
    ensures MentionsAny(text, phrases) <==> Contains(text, key)
  {
    if MentionsAny(text, phrases) {
      var i :| 0 <= i < |phrases| && Contains(text, phrases[i]);
      ContainsTransitive(text, phrases[i], key);
    }
    if Contains(text, key) {
      var i :| 0 <= i < |phrases| && phrases[i] == key;
    }
  }

  lemma MentionsAppend(text: string, a: seq<string>, b: seq<string>)
    ensures MentionsAny(text, a + b) <==> MentionsAny(text, a) || MentionsAny(text, b)
  {
    if MentionsAny(text, a + b) {
      var i :| 0 <= i < |a + b| && Contains(text, (a + b)[i]);
      if i >= |a| { assert (a + b)[i] == b[i - |a|]; } else { assert (a + b)[i] == a[i]; }
    }
    if MentionsAny(text, a) {
      var i :| 0 <= i < |a| && Contains(text, a[i]);
      assert (a + b)[i] == a[i];
    }
    if MentionsAny(text, b) {
      var i :| 0 <= i < |b| && Contains(text, b[i]);
      assert (a + b)[|a| + i] == b[i];
      assert Contains(text, (a + b)[|a| + i]);
    }
  }

  lemma EndsWith(s: string, key: string)
    requires |key| <= |s| && s[|s| - |key|..] == key
    ensures Contains(s, key)
  {
    assert s == s[..|s| - |key|] + key;
    ContainsSuffix(s[..|s| - |key|], key);
  }

  lemma StartsWith(s: string, key: string)
    requires |key| <= |s| && s[..|key|] == key
    ensures Contains(s, key)
  {
    assert s == key + s[|key|..];
    ContainsPrefix(key, s[|key|..]);
  }

  lemma ContainsSelf(s: string)
    ensures Contains(s, s)
  {
    assert OccursAt(s, s, 0);
  }

  /** Every phrase of a row ends in "products". */
  predicate EndsInProducts(s: string)
  {
    |s| >= 8 && s[|s| - 8..] == "products"
  }

  lemma RowIncludes(row: seq<string>)
    requires forall i :: 0 <= i < |row| ==> EndsInProducts(row[i])
    ensures AllInclude(row, "products")
  {
    forall i | 0 <= i < |row| ensures Contains(row[i], "products") {
      EndsWith(row[i], "products");
    }
  }

  lemma AllIncludeAppend(a: seq<string>, b: seq<string>, key: string)
    requires AllInclude(a, key) && AllInclude(b, key)
    ensures AllInclude(a + b, key)
  {
    forall i | 0 <= i < |a + b| ensures Contains((a + b)[i], key) {
      if i < |a| { assert (a + b)[i] == a[i]; } else { assert (a + b)[i] == b[i - |a|]; }
    }
  }

  lemma ProductRow0Includes()
    ensures AllInclude(ProductRow0, "products")
  {
    assert EndsInProducts(ProductRow0[0]) && EndsInProducts(ProductRow0[1]) && EndsInProducts(ProductRow0[2]);
    assert EndsInProducts(ProductRow0[3]) && EndsInProducts(ProductRow0[4]);
    RowIncludes(ProductRow0);
  }

  lemma ProductRow1Includes()
    ensures AllInclude(ProductRow1, "products")
  {
    assert EndsInProducts(ProductRow1[0]) && EndsInProducts(ProductRow1[1]) && EndsInProducts(ProductRow1[2]);
    assert EndsInProducts(ProductRow1[3]) && EndsInProducts(ProductRow1[4]);
    RowIncludes(ProductRow1);
  }

  lemma ProductRow2Includes()
    ensures AllInclude(ProductRow2, "products")
  {
    assert EndsInProducts(ProductRow2[0]) && EndsInProducts(ProductRow2[1]) && EndsInProducts(ProductRow2[2]);
    assert EndsInProducts(ProductRow2[3]) && EndsInProducts(ProductRow2[4]);
    RowIncludes(ProductRow2);
  }

  lemma ProductRow3Includes()
    ensures AllInclude(ProductRow3, "products")
  {
    assert EndsInProducts(ProductRow3[0]) && EndsInProducts(ProductRow3[1]) && EndsInProducts(ProductRow3[2]);
    assert EndsInProducts(ProductRow3[3]) && EndsInProducts(ProductRow3[4]);
    RowIncludes(ProductRow3);
  }

  lemma ProductPhrasesInclude()
    ensures AllInclude(ProductPhrases, "products")
  {
    ProductRow0Includes();
    ProductRow1Includes();
    ProductRow2Includes();
    ProductRow3Includes();
    AllIncludeAppend(ProductRow0, ProductRow1, "products");
    AllIncludeAppend(ProductRow0 + ProductRow1, ProductRow2, "products");
    AllIncludeAppend(ProductRow0 + ProductRow1 + ProductRow2, ProductRow3, "products");
  }

  lemma ProductPhrasesReduce(text: string)
    ensures MentionsAny(text, ProductPhrases) <==> Contains(text, "products")
  {
    ProductPhrasesInclude();
    assert ProductPhrases[0] == "products";
    MentionsReduce(text, ProductPhrases, "products");
  }

  lemma DealPhrasesReduce(text: string)
    ensures MentionsAny(text, DealPhrases) <==> Contains(text, "deals") || Contains(text, "special offers")
  {
    var a, b := DealPhrases[..4], DealPhrases[4..];
    assert DealPhrases == a + b;
    assert a[0] == "deals" && a[1][5..] == "deals" && a[2][5..] == "deals" && a[3][6..] == "deals";
    forall i | 0 <= i < |a| ensures Contains(a[i], "deals") {
      EndsWith(a[i], "deals");
    }
    MentionsReduce(text, a, "deals");
    assert b == ["special offers"];
    ContainsSelf("special offers");
    MentionsReduce(text, b, "special offers");
    MentionsAppend(text, a, b);
  }

  lemma HelpPhrasesReduce(text: string)
    ensures MentionsAny(text, HelpPhrases) <==>
      Contains(text, "help") || Contains(text, "what can you do") || Contains(text, "your capabilities")
  {
    var a, b, c := ["help", "how can you help"], ["what can you do"], ["your capabilities"];
    assert HelpPhrases == [a[0]] + b + c + [a[1]];
    assert a[1][12..] == "help";
    EndsWith(a[1], "help");
    ContainsSelf("help");
    ContainsSelf("what can you do");
    ContainsSelf("your capabilities");
    MentionsReduce(text, a, "help");
    MentionsReduce(text, b, "what can you do");
    MentionsReduce(text, c, "your capabilities");
    if MentionsAny(text, HelpPhrases) {
      var i :| 0 <= i < |HelpPhrases| && Contains(text, HelpPhrases[i]);
      if i == 0 { assert Contains(text, a[0]); }
      else if i == 3 { assert Contains(text, a[1]); }
    }
    if Contains(text, "help") { assert Contains(text, HelpPhrases[0]); }
    if Contains(text, "what can you do") { assert Contains(text, HelpPhrases[1]); }
    if Contains(text, "your capabilities") { assert Contains(text, HelpPhrases[2]); }
  }

  lemma HomePhrasesReduce(text: string)
    ensures MentionsAny(text, HomePhrases) <==> Contains(text, "home")
  {
    assert HomePhrases[0] == "home" && HomePhrases[1][3..] == "home" && HomePhrases[2][8..] == "home";
    forall i | 0 <= i < |HomePhrases| ensures Contains(HomePhrases[i], "home") {
      EndsWith(HomePhrases[i], "home");
    }
    MentionsReduce(text, HomePhrases, "home");
  }

  /** Which branch a command takes, with each phrase group reduced to the words that decide
      it. "help me" never reaches the contact branch: it includes "help". */
  lemma ClassifySpec(command: string)
    ensures var l := ToLower(command);
      var products := Contains(l, "products");
      var deals := Contains(l, "deals") || Contains(l, "special offers");
      var help := Contains(l, "help") || Contains(l, "what can you do") || Contains(l, "your capabilities");
      var home := Contains(l, "home");
      var contact := Contains(l, "contact") || Contains(l, "support");
      (Classify(command) == ShowProducts <==> products)
      && (Classify(command) == ShowDeals <==> !products && deals)
      && (Classify(command) == Help <==> !products && !deals && help)
      && (Classify(command) == AlreadyHome <==> !products && !deals && !help && home)
      && (Classify(command) == Contact <==> !products && !deals && !help && !home && contact)
      && (Classify(command) == Unrecognized <==> !products && !deals && !help && !home && !contact)
  {
    var l := ToLower(command);
    ProductPhrasesReduce(l);
    DealPhrasesReduce(l);
    HelpPhrasesReduce(l);
    HomePhrasesReduce(l);
    var c := Contains(l, "contact") || Contains(l, "support");
    if MentionsAny(l, ContactPhrases) && !MentionsAny(l, HelpPhrases) {
      var i :| 0 <= i < |ContactPhrases| && Contains(l, ContactPhrases[i]);
      if i == 2 {
        StartsWith(ContactPhrases[2], "help");
        ContainsTransitive(l, ContactPhrases[2], "help");
      }
    }
    if c {
      if Contains(l, "contact") { assert Contains(l, ContactPhrases[0]); }
      else { assert Contains(l, ContactPhrases[1]); }
    }
  }

  class HomePage {
    var isNavigating: bool
    var navigationMessage: string

    constructor ()
      ensures !isNavigating && navigationMessage == ""
    {
      isNavigating, navigationMessage := false, "";
    }

    /** `handleTranscript(command)`: the page navigates, after showing its overlay, exactly
        when the lower-cased command includes "products". */
    method HandleTranscript(command: string, user: Option<User>) returns (r: Reaction)
      modifies this
      ensures r == Respond(Classify(command), command, DisplayName(user))
      ensures r.navigateTo.Some? <==> Contains(ToLower(command), "products")
      ensures r.navigateTo.Some? ==>
                isNavigating && navigationMessage == "Showing you all the products... Please wait for a while."
      ensures r.navigateTo.None? ==>
                isNavigating == old(isNavigating) && navigationMessage == old(navigationMessage)
    {
      var k := Classify(command);
      ProductPhrasesReduce(ToLower(command));
      if k == ShowProducts {
        isNavigating := true;
        navigationMessage := "Showing you all the products... Please wait for a while.";
      }
      r := Respond(k, command, DisplayName(user));
    }
  }
}
