/**
 * The WhatsApp bot's lead-temperature classifier: the lower-cased message is matched
 * by substring against three keyword tiers, hot first, then cold, then warm.
 */
module Classifier {
  import opened Text

  datatype Category = Hot | Warm | Cold

  /** Purchase, price and urgency signals. */
  const HotKeywords: seq<string> :=
    ["quote", "price", "premium", "cost", "buy", "purchase", "proceed",
     "call me", "sign up", "ready", "how much", "let's do it"]

  /** Disinterest, deferral and already-covered signals. */
  const ColdKeywords: seq<string> :=
    ["not interested", "no thanks", "later", "maybe", "busy", "don't need", "already have"]

  /** Curiosity and comparison signals. */
  const WarmKeywords: seq<string> :=
    ["interested", "comparing", "options", "benefits", "tell me more", "curious", "thinking"]

  /** `keywords.some(kw => text.includes(kw))`: some keyword of the list is found by the scan. */
  predicate AnyMatch(text: string, keywords: seq<string>) {
    exists k :: 0 <= k < |keywords| && Contains(text, keywords[k])
  }

  /** Reference meaning: at least one keyword of the list occurs in the text. */
  ghost predicate Mentions(text: string, keywords: seq<string>) {
    exists k :: 0 <= k < |keywords| && OccursIn(keywords[k], text)
  }

  lemma AnyMatchIff(text: string, keywords: seq<string>)
    ensures AnyMatch(text, keywords) <==> Mentions(text, keywords)
  {
    forall k | 0 <= k < |keywords| ensures Contains(text, keywords[k]) <==> OccursIn(keywords[k], text) {
      ContainsIff(text, keywords[k]);
    }
  }

  /** The tiered decision over an already lower-cased text: the first tier with a match
    * decides; the warm tier only lifts a cold lead; with no match the category stays. */
  function Tiered(prev: Category, lower: string, hot: seq<string>, cold: seq<string>, warm: seq<string>): Category {
    if AnyMatch(lower, hot) then Hot
    else if AnyMatch(lower, cold) then Cold
    else if AnyMatch(lower, warm) && prev == Cold then Warm
    else prev
  }

  /** `analyzeAndUpdateCategory`'s new category for a lead in category `prev`.
    * A lead only ever becomes warm from cold (or by staying warm). */
  function Classify(prev: Category, message: string): (r: Category)
    ensures r == Warm ==> prev == Warm || prev == Cold
  {
    Tiered(prev, Lower(message), HotKeywords, ColdKeywords, WarmKeywords)
  }

  /** A hot keyword anywhere makes the lead hot, whatever it was. */
  lemma HotWins(prev: Category, message: string)
    requires Mentions(Lower(message), HotKeywords)
    ensures Classify(prev, message) == Hot
  {
    AnyMatchIff(Lower(message), HotKeywords);
  }

  /** Without a hot keyword, a cold keyword makes the lead cold, whatever it was. */
  lemma ColdWhenNotHot(prev: Category, message: string)
    requires !Mentions(Lower(message), HotKeywords)
    requires Mentions(Lower(message), ColdKeywords)
    ensures Classify(prev, message) == Cold
  {
    AnyMatchIff(Lower(message), HotKeywords);
    AnyMatchIff(Lower(message), ColdKeywords);
  }

  /** With only warm keywords, a cold lead becomes warm and any other stays as it was. */
  lemma WarmOnlyLiftsCold(prev: Category, message: string)
    requires !Mentions(Lower(message), HotKeywords)
    requires !Mentions(Lower(message), ColdKeywords)
    requires Mentions(Lower(message), WarmKeywords)
    ensures Classify(prev, message) == if prev == Cold then Warm else prev
  {
    AnyMatchIff(Lower(message), HotKeywords);
    AnyMatchIff(Lower(message), ColdKeywords);
    AnyMatchIff(Lower(message), WarmKeywords);
  }

  /** A message with no keyword of any tier leaves the category alone. */
  lemma NoKeywordKeepsCategory(prev: Category, message: string)
    requires !Mentions(Lower(message), HotKeywords)
    requires !Mentions(Lower(message), ColdKeywords)
    requires !Mentions(Lower(message), WarmKeywords)
    ensures Classify(prev, message) == prev
  {
    AnyMatchIff(Lower(message), HotKeywords);
    AnyMatchIff(Lower(message), ColdKeywords);
    AnyMatchIff(Lower(message), WarmKeywords);
  }

  /** The lead ends hot exactly when a hot keyword occurs, or it was hot and no
    * cold keyword occurs. */
  lemma HotIff(prev: Category, message: string)
    ensures Classify(prev, message) == Hot <==>
      Mentions(Lower(message), HotKeywords)
      || (prev == Hot && !Mentions(Lower(message), ColdKeywords))
  {
    AnyMatchIff(Lower(message), HotKeywords);
    AnyMatchIff(Lower(message), ColdKeywords);
  }

  /** The lead ends cold exactly when no hot keyword occurs and either a cold keyword
    * occurs or it was cold and no warm keyword occurs. */
  lemma ColdIff(prev: Category, message: string)
    ensures Classify(prev, message) == Cold <==>
      !Mentions(Lower(message), HotKeywords)
      && (Mentions(Lower(message), ColdKeywords)
          || (prev == Cold && !Mentions(Lower(message), WarmKeywords)))
  {
    AnyMatchIff(Lower(message), HotKeywords);
    AnyMatchIff(Lower(message), ColdKeywords);
    AnyMatchIff(Lower(message), WarmKeywords);
  }

  /** "ready" is a piece of "already have". */
  lemma ReadyInAlreadyHave()
    ensures OccursIn("ready", "already have")
  {
    assert OccursAt("ready", "already have", 2);
  }

  /** Any message that mentions "already have" (in any letter case) is hot, because
    * the hot keyword "ready" occurs inside it. */
  lemma AlreadyHaveIsHot(prev: Category, message: string)
    requires OccursIn("already have", Lower(message))
    ensures Classify(prev, message) == Hot
  {
    ReadyInAlreadyHave();
    OccursTransitive("ready", "already have", Lower(message));
    assert HotKeywords[9] == "ready";
    HotWins(prev, message);
  }

  /** The cold keyword "already have" never decides the outcome: dropping it from the
    * cold tier classifies every message the same way. */
  lemma AlreadyHaveNeverDecides(prev: Category, message: string)
    ensures Classify(prev, message)
      == Tiered(prev, Lower(message), HotKeywords, ColdKeywords[..6], WarmKeywords)
  {
    var lower := Lower(message);
    AnyMatchIff(lower, ColdKeywords);
    AnyMatchIff(lower, ColdKeywords[..6]);
    if !AnyMatch(lower, HotKeywords) && Mentions(lower, ColdKeywords) {
      var k :| 0 <= k < |ColdKeywords| && OccursIn(ColdKeywords[k], lower);
      if k == 6 {
        AlreadyHaveIsHot(prev, message);
        assert false;
      }
      assert OccursIn(ColdKeywords[..6][k], lower);
    }
  }

  /** Matching ignores letter case: lower-casing the message first changes nothing. */
  lemma IgnoresCase(prev: Category, message: string)
    ensures Classify(prev, Lower(message)) == Classify(prev, message)
  {
    LowerIsLower(message);
  }

  /** Every keyword has at least three characters, so a message shorter than that
    * matches none and keeps the category. */
  lemma ShortMessageKeepsCategory(prev: Category, message: string)
    requires |message| < 3
    ensures Classify(prev, message) == prev
  {
    var lower := Lower(message);
    KeywordsHaveThreeChars();
    NoMatchInShortText(lower, HotKeywords);
    NoMatchInShortText(lower, ColdKeywords);
    NoMatchInShortText(lower, WarmKeywords);
  }

  lemma KeywordsHaveThreeChars()
    ensures forall kw :: kw in HotKeywords ==> |kw| >= 3
    ensures forall kw :: kw in ColdKeywords ==> |kw| >= 3
    ensures forall kw :: kw in WarmKeywords ==> |kw| >= 3
  {
    HotKeywordsHaveThreeChars();
    ColdKeywordsHaveThreeChars();
    WarmKeywordsHaveThreeChars();
  }

  lemma HotKeywordsHaveThreeChars()
    ensures forall kw :: kw in HotKeywords ==> |kw| >= 3
  {
    forall kw | kw in HotKeywords ensures |kw| >= 3 {
      var k :| 0 <= k < |HotKeywords| && HotKeywords[k] == kw;
    }
  }

  lemma ColdKeywordsHaveThreeChars()
    ensures forall kw :: kw in ColdKeywords ==> |kw| >= 3
  {
    forall kw | kw in ColdKeywords ensures |kw| >= 3 {
      var k :| 0 <= k < |ColdKeywords| && ColdKeywords[k] == kw;
    }
  }

  lemma WarmKeywordsHaveThreeChars()
    ensures forall kw :: kw in WarmKeywords ==> |kw| >= 3
  {
    forall kw | kw in WarmKeywords ensures |kw| >= 3 {
      var k :| 0 <= k < |WarmKeywords| && WarmKeywords[k] == kw;
    }
  }

  lemma NoMatchInShortText(text: string, keywords: seq<string>)
    requires forall kw :: kw in keywords ==> |text| < |kw|
    ensures !AnyMatch(text, keywords)
  {
    forall k | 0 <= k < |keywords| ensures !Contains(text, keywords[k]) {
      if Contains(text, keywords[k]) {
        ContainsNeedsRoom(text, keywords[k]);
      }
    }
  }

  /** A price question pulls a cold lead to hot. */
  lemma PriceQuestionIsHot()
    ensures Classify(Cold, "how much is the premium") == Hot
  {
    var question := "how much is the premium";
    assert OccursAt("how much", question, 0);
    assert Lower("how much") == HotKeywords[10];
    HotInAnyCase(Cold, question, "how much");
  }

  /** A hot keyword written in any letter case makes the lead hot. */
  lemma HotInAnyCase(prev: Category, message: string, w: string)
    requires Lower(w) in HotKeywords && OccursIn(w, message)
    ensures Classify(prev, message) == Hot
  {
    var k :| 0 <= k < |HotKeywords| && HotKeywords[k] == Lower(w);
    LowerKeepsOccurrence(w, HotKeywords[k], message);
    HotWins(prev, message);
  }
}
