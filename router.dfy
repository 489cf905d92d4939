/**
 * The intent router (app/router.py): a closed set of actions, an ordered list of
 * regular-expression rules tried on the lower-cased input (the fast path), and a
 * fallback to a language model when no rule fires.
 */
module Router {
  import opened Wrappers
  import opened Text
  import opened Regex

  /** The routing categories; any other value is not an action. */
  datatype Action =
    | Smalltalk | RAG | Web | Stock | Calc | Portfolio | Valuation | Fx | Events | Kpi
    | Risk | Statements | Esg | Options | Bonds | Parity | Rebalance | Auto | Email

  /** A routing decision: the chosen action and the query it applies to. */
  datatype Route = Route(action: Action, query: string)

  /** One fast-path rule: a pattern searched anywhere in the text, and its action. */
  datatype Rule = Rule(pattern: Regex, action: Action)

  const Spaces: Regex := Rep(Whitespace, 0, Unbounded)   // \s*
  const Spaces1: Regex := Rep(Whitespace, 1, Unbounded)  // \s+
  const EOrAcute: Regex := Alt(Lit("é"), Lit("e"))        // (é|e)

  /** `^\s*(bonjour|salut|hello)\b` */
  const GreetingWords: Regex := Alt(Lit("bonjour"), Alt(Lit("salut"), Lit("hello")))
  const Greeting: Regex := Cat(Start, Cat(Spaces, Cat(GreetingWords, WordBoundary)))

  /** Questions about who built the assistant. */
  const CreatorIdentity: Regex := Bounded(AnyOf([
    Concat([Lit("qui"), Spaces, Lit("t"), Rep(OneOf("'’"), 0, AtMost(1)), Lit("a"), Spaces,
            Lit("cr"), EOrAcute, Lit("é")]),
    Concat([Lit("ton"), Spaces, Lit("cr"), EOrAcute, Lit("ateur")]),
    Concat([Lit("cr"), EOrAcute, Lit("é"), Spaces, Lit("par"), Spaces, Lit("qui")]),
    Concat([Lit("who"), Spaces, Lit("created"), Spaces, Lit("you")])]))

  /** References to the user's own document corpus. */
  const DocumentReference: Regex := Bounded(AnyOf([
    Concat([Lit("selon"), Spaces1, AnyOf([Lit("le"), Lit("la")]), Spaces1,
            AnyOf([Lit("rapport"), Lit("document")])]),
    Concat([Lit("dans"), Spaces1, Lit("mes"), Spaces1, Lit("docs")]),
    Lit("corpus")]))

  /** Requests for news. */
  const NewsRequest: Regex := Bounded(AnyOf([
    Lit("actu"), Lit("actualités"), Lit("news"), Lit("dernières nouvelles"),
    Concat([Lit("latest"), Spaces1, Lit("news")])]))

  /** The alternatives of the market-data rule: `pe\b`, `p/?e`, `close\s+[A-Z]{1,6}\b`, `\bticker\b`. */
  const PeWord: Regex := Cat(Lit("pe"), WordBoundary)
  const PSlashE: Regex := Cat(Lit("p"), Cat(Rep(OneOf("/"), 0, AtMost(1)), Lit("e")))
  const CloseTicker: Regex :=
    Cat(Lit("close"), Cat(Spaces1, Cat(Rep(Range('A', 'Z'), 1, AtMost(6)), WordBoundary)))
  const TickerWord: Regex := Cat(WordBoundary, Cat(Lit("ticker"), WordBoundary))
  const StockTerms: Regex := Alt(PeWord, Alt(PSlashE, Alt(CloseTicker, TickerWord)))
  /** The same alternatives without `close TICKER`. */
  const StockTermsLive: Regex := Alt(PeWord, Alt(PSlashE, TickerWord))

  /** Financial computations. */
  const CalcTerms: Regex := Bounded(AnyOf([
    Lit("cagr"), Cat(Lit("cag"), WordBoundary), Lit("rendement"), Lit("roi"), Lit("npv"),
    Lit("van"), Lit("irr"), Lit("calcul"), Lit("%")]))

  /** Requests to write or send an e-mail. */
  const EmailRequest: Regex := Bounded(AnyOf([
    Lit("email"), Lit("mail"), Lit("courriel"),
    Concat([Lit("envoie"), Opt(Lit(" r")), Lit(" un "), AnyOf([Lit("mail"), Lit("email")])]),
    Lit("écris un mail"), Lit("rédige un mail")]))

  /** The fast-path rules' patterns, in the order they are tried, and the action each one gives. */
  const RulePatterns: seq<Regex> := [
    Greeting, CreatorIdentity, DocumentReference, NewsRequest, Bounded(StockTerms), Bounded(CalcTerms), EmailRequest]
  const RuleActions: seq<Action> := [Smalltalk, Smalltalk, RAG, Web, Stock, Calc, Email]

  /** Pairs each pattern with the action at the same position. */
  function Rules(patterns: seq<Regex>, actions: seq<Action>): (rules: seq<Rule>)
    requires |patterns| == |actions|
    ensures |rules| == |patterns|
    ensures forall j :: 0 <= j < |rules| ==> rules[j] == Rule(patterns[j], actions[j])
  {
    seq(|patterns|, j requires 0 <= j < |patterns| => Rule(patterns[j], actions[j]))
  }

  /** The fast-path rules, in the order they are tried. */
  const Patterns: seq<Rule> := Rules(RulePatterns, RuleActions)

  /** The actions the fast path can produce. */
  const FastpathActions: set<Action> := {Smalltalk, RAG, Web, Stock, Calc, Email}

  /** Rule `j` is the first rule of `rules` whose pattern occurs in `text`. */
  predicate FirstHit(rules: seq<Rule>, text: string, j: nat) {
    j < |rules| && Search(rules[j].pattern, text)
    && forall m :: 0 <= m < j ==> !Search(rules[m].pattern, text)
  }

  /** The action of the first rule whose pattern occurs in `text`, if any. */
  function FirstMatch(rules: seq<Rule>, text: string): (r: Option<Action>)
    ensures r.None? <==> forall j :: 0 <= j < |rules| ==> !Search(rules[j].pattern, text)
    ensures r.Some? ==> exists j: nat :: FirstHit(rules, text, j) && rules[j].action == r.value
  {
    if rules == [] then None
    else if Search(rules[0].pattern, text) then
      assert FirstHit(rules, text, 0);
      Some(rules[0].action)
    else
      var r := FirstMatch(rules[1..], text);
      if r.Some? then
        var j: nat :| FirstHit(rules[1..], text, j) && rules[1..][j].action == r.value;
        assert FirstHit(rules, text, j + 1);
        r
      else
        r
  }

  /** `fastpath_route`: the rules are tried on the lower-cased input. */
  function FastpathRoute(userInput: string): (r: Option<Action>)
    ensures r.Some? ==> r.value in FastpathActions
    ensures r.None? <==> forall j :: 0 <= j < |Patterns| ==> !Search(Patterns[j].pattern, LowerStr(userInput))
  {
    PatternActions();
    FirstMatch(Patterns, LowerStr(userInput))
  }

  /** Every rule's action is one of the fast-path actions. */
  lemma PatternActions()
    ensures forall j :: 0 <= j < |Patterns| ==> Patterns[j].action in FastpathActions
  {
    assert forall j :: 0 <= j < |RuleActions| ==> RuleActions[j] in FastpathActions;
  }

  /** `route_query`: the fast-path action with the original input when a rule fires, else the model's answer. */
  function RouteQuery(model: string -> Route, userInput: string): (r: Route)
    ensures FastpathRoute(userInput).Some? ==> r == Route(FastpathRoute(userInput).value, userInput)
    ensures FastpathRoute(userInput).None? ==> r == model(userInput)
  {
    match FastpathRoute(userInput)
    case Some(a) => Route(a, userInput)
    case None => model(userInput)
  }

  /** A fast-path hit decides the route whatever the model would have answered. */
  lemma FastpathBypassesModel(m1: string -> Route, m2: string -> Route, userInput: string)
    requires FastpathRoute(userInput).Some?
    ensures RouteQuery(m1, userInput) == RouteQuery(m2, userInput)
    ensures RouteQuery(m1, userInput).query == userInput
    ensures RouteQuery(m1, userInput).action in FastpathActions
  {
  }

  /** The fast path does not depend on letter case. */
  lemma {:induction false} FastpathIgnoresCase(userInput: string)
    ensures FastpathRoute(LowerStr(userInput)) == FastpathRoute(userInput)
  {
    LowerStrIdempotent(userInput);
  }

  /** `w` starts `t` and is not followed by a word character. */
  predicate WordAt(t: string, w: string) {
    StartsWith(t, w) && (|t| == |w| || !IsWordChar(t[|w|]))
  }

  const GreetingWordList: seq<string> := ["bonjour", "salut", "hello"]

  /** The greeting rule read directly: after leading whitespace, a greeting word that ends there. */
  predicate StartsWithGreeting(t: string) {
    exists w :: w in GreetingWordList && WordAt(LStrip(t), w)
  }

  /** `\s*` matches only whitespace. */
  lemma SpacesAll(t: string, k: nat)
    requires k <= |t| && Match(Spaces, t, 0, k)
    ensures AllSpace(t[..k])
  {
    forall m | 0 <= m < k ensures IsSpace(t[..k][m]) {
      assert InSet(Whitespace, t[m]);
    }
  }

  /** A greeting word is not empty, starts with a letter and ends with a word character. */
  lemma GreetingWordEnds(t: string, i: nat, k: nat)
    requires i <= k <= |t| && Match(GreetingWords, t, i, k)
    ensures t[i..k] in GreetingWordList
    ensures i < k && !IsSpace(t[i]) && IsWordChar(t[k - 1])
  {
    assert t[i] == t[i..k][0];
    assert t[k - 1] == t[i..k][k - 1 - i];
  }

  /** The pieces of a greeting match: whitespace up to `j1`, a greeting word up to `j2`, and a word boundary there. */
  predicate GreetingSpans(t: string, j1: nat, j2: nat) {
    j1 <= j2 <= |t| && Match(Spaces, t, 0, j1) && Match(GreetingWords, t, j1, j2) && Match(WordBoundary, t, j2, j2)
  }

  /** Every match of the greeting pattern is made of those pieces. */
  lemma GreetingMatchSpans(t: string, i: nat, k: nat)
    requires i <= k <= |t| && Match(Greeting, t, i, k)
    ensures exists j1, j2 :: GreetingSpans(t, j1, j2)
  {
    CatSplit(Start, Cat(Spaces, Cat(GreetingWords, WordBoundary)), t, i, k);
    var j1 :| i <= j1 <= k && Match(Spaces, t, 0, j1) && Match(Cat(GreetingWords, WordBoundary), t, j1, k);
    CatSplit(GreetingWords, WordBoundary, t, j1, k);
    var j2 :| j1 <= j2 <= k && Match(GreetingWords, t, j1, j2) && Match(WordBoundary, t, j2, k);
    assert GreetingSpans(t, j1, j2);
  }

  /** Those pieces make a match of the greeting pattern. */
  lemma SpansMatchGreeting(t: string, j1: nat, j2: nat)
    requires GreetingSpans(t, j1, j2)
    ensures Match(Greeting, t, 0, j2)
  {
    CatJoin(GreetingWords, WordBoundary, t, j1, j2, j2);
    CatJoin(Spaces, Cat(GreetingWords, WordBoundary), t, 0, j1, j2);
    assert Match(Start, t, 0, 0);
    CatJoin(Start, Cat(Spaces, Cat(GreetingWords, WordBoundary)), t, 0, 0, j2);
  }

  /** Those pieces mean that the text, after its leading whitespace, starts with a greeting word that ends there. */
  lemma SpansStartGreeting(t: string, j1: nat, j2: nat)
    requires GreetingSpans(t, j1, j2)
    ensures StartsWithGreeting(t)
  {
    GreetingWordEnds(t, j1, j2);
    SpacesAll(t, j1);
    LStripAt(t, j1);
    StartsWithSlice(t, j1, j2);
    assert !WordAfter(t, j2);
    var u, w := t[j1..], t[j1..j2];
    assert |w| == j2 - j1;
    assert j2 == |t| || u[|w|] == t[j2];
    assert WordAt(u, w);
  }

  /** A text that starts, after its leading whitespace, with a greeting word that ends there has those pieces. */
  lemma GreetingGivesSpans(t: string)
    requires StartsWithGreeting(t)
    ensures exists j1, j2 :: GreetingSpans(t, j1, j2)
  {
    var u := LStrip(t);
    var j1 := |t| - |u|;
    LStripSuffix(t);
    var w :| w in GreetingWordList && WordAt(u, w);
    var j2 := j1 + |w|;
    assert t[j1..j2] == u[..|w|];
    assert Match(GreetingWords, t, j1, j2);
    GreetingWordEnds(t, j1, j2);
    assert j2 == |t| || t[j2] == u[|w|];
    assert WordBefore(t, j2) && !WordAfter(t, j2);
    assert Match(Spaces, t, 0, j1) by {
      assert forall m :: 0 <= m < j1 ==> t[m] == t[..j1][m];
    }
    assert GreetingSpans(t, j1, j2);
  }

  /** A match of the greeting pattern starts, after the leading whitespace, with a greeting word that ends there. */
  lemma GreetingSound(t: string)
    requires Search(Greeting, t)
    ensures StartsWithGreeting(t)
  {
    var i: nat, k: nat :| i <= k <= |t| && Match(Greeting, t, i, k);
    GreetingMatchSpans(t, i, k);
    var j1, j2 :| GreetingSpans(t, j1, j2);
    SpansStartGreeting(t, j1, j2);
  }

  /** A text that starts, after leading whitespace, with a greeting word that ends there matches the greeting pattern. */
  lemma GreetingComplete(t: string)
    requires StartsWithGreeting(t)
    ensures Search(Greeting, t)
  {
    GreetingGivesSpans(t);
    var j1, j2 :| GreetingSpans(t, j1, j2);
    SpansMatchGreeting(t, j1, j2);
  }

  /** The greeting pattern holds exactly when the text, after leading whitespace, starts with a greeting word that ends there. */
  lemma GreetingExact(t: string)
    ensures Search(Greeting, t) <==> StartsWithGreeting(t)
  {
    if Search(Greeting, t) {
      GreetingSound(t);
    }
    if StartsWithGreeting(t) {
      GreetingComplete(t);
    }
  }

  /** A message opening with a greeting word is small talk, whatever follows. */
  lemma GreetingIsSmalltalk(userInput: string)
    requires StartsWithGreeting(LowerStr(userInput))
    ensures FastpathRoute(userInput) == Some(Smalltalk)
  {
    GreetingComplete(LowerStr(userInput));
  }

  /** A question about the assistant's creator is small talk, even if it also names a document, news, a ticker, a computation or an e-mail. */
  lemma CreatorIdentityIsSmalltalk(userInput: string)
    requires Search(CreatorIdentity, LowerStr(userInput))
    ensures FastpathRoute(userInput) == Some(Smalltalk)
  {
    var t := LowerStr(userInput);
    if !Search(Greeting, t) {
      assert Patterns[1..][0] == Patterns[1] == Rule(CreatorIdentity, Smalltalk);
      assert FirstMatch(Patterns[1..], t) == Some(Smalltalk);
    }
  }

  /** `close\s+[A-Z]{1,6}\b` needs an upper-case ASCII letter in the span it matches. */
  lemma CloseTickerNeedsCapital(s: string, i: nat, k: nat)
    requires i <= k <= |s| && Match(CloseTicker, s, i, k)
    ensures exists m :: i <= m < k && IsUpperCase(s[m])
  {
    var ticker := Cat(Rep(Range('A', 'Z'), 1, AtMost(6)), WordBoundary);
    CatSplit(Lit("close"), Cat(Spaces1, ticker), s, i, k);
    var j1 :| i <= j1 <= k && Match(Cat(Spaces1, ticker), s, j1, k);
    CatSplit(Spaces1, ticker, s, j1, k);
    var j2 :| j1 <= j2 <= k && Match(ticker, s, j2, k);
    CatSplit(Rep(Range('A', 'Z'), 1, AtMost(6)), WordBoundary, s, j2, k);
    var j3 :| j2 <= j3 <= k && Match(Rep(Range('A', 'Z'), 1, AtMost(6)), s, j2, j3);
    assert InSet(Range('A', 'Z'), s[j2]);
    assert IsUpperCase(s[j2]);
  }

  /**
   * The input is lower-cased before matching, so the `close TICKER` branch of the
   * market-data rule can never fire: the rule behaves as if it had only its other three branches.
   */
  lemma CloseTickerIsDead(userInput: string)
    ensures SameSpans(StockTerms, StockTermsLive, LowerStr(userInput))
    ensures Search(Bounded(StockTerms), LowerStr(userInput))
        <==> Search(Bounded(StockTermsLive), LowerStr(userInput))
  {
    var t := LowerStr(userInput);
    forall i: nat, k: nat | i <= k <= |t|
      ensures Match(StockTerms, t, i, k) <==> Match(StockTermsLive, t, i, k)
    {
      if Match(CloseTicker, t, i, k) {
        CloseTickerNeedsCapital(t, i, k);
        assert false;
      }
    }
    SameSpansInContext(WordBoundary, StockTerms, StockTermsLive, WordBoundary, t);
  }

  /** Every rule's action is one of the fast-path actions and all other actions are reached only through the model. */
  lemma ModelOnlyActions(userInput: string, model: string -> Route)
    requires RouteQuery(model, userInput).action !in FastpathActions
    ensures FastpathRoute(userInput).None?
    ensures forall j :: 0 <= j < |Patterns| ==> !Search(Patterns[j].pattern, LowerStr(userInput))
  {
  }
}
