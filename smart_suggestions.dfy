/** The follow-up questions offered under the conversation: chosen by
    keyword rules from the last question and the last answer. */
module Suggestions {
  import opened Base
  import opened Text

  const WhatIs := "what is"
  const Explain := "explain"
  const CryptoWord := "crypto"
  const TokenWord := "token"
  const BlockchainWord := "blockchain"
  const GitHubWord := "github"
  const RepositoryWord := "repository"
  const CodeWord := "code"
  const SentientWord := "sentient"
  const DobbyWord := "dobby"

  const ExplainFollowUps: seq<string> := [
    "How does this compare to similar projects?",
    "What are the practical applications?",
    "What are the potential risks or challenges?"]
  const CryptoFollowUps: seq<string> := [
    "What is the current price and market cap?",
    "Who are the main competitors?",
    "What does the community think about this?"]
  const CodeFollowUps: seq<string> := [
    "Show me the most recent commits and updates",
    "What are the main issues and discussions?",
    "How can I contribute to this project?"]
  const SentientFollowUps: seq<string> := [
    "How can I get involved with the Sentient community?",
    "What are the latest developments from Sentient?",
    "How does Sentient compare to other AI projects?"]
  const GenericFollowUps: seq<string> := [
    "Can you provide more details about this?",
    "What are the latest updates?",
    "How does this work in practice?"]

  const MaxSuggestions := 3

  /** The question asks what something is or for an explanation. */
  predicate AsksExplanation(query: string)
  {
    Contains(ToLower(query), WhatIs) || Contains(ToLower(query), Explain)
  }

  predicate MentionsCrypto(response: string)
  {
    Contains(ToLower(response), CryptoWord) || Contains(ToLower(response), TokenWord)
    || Contains(ToLower(response), BlockchainWord)
  }

  predicate MentionsCode(response: string)
  {
    Contains(ToLower(response), GitHubWord) || Contains(ToLower(response), RepositoryWord)
    || Contains(ToLower(response), CodeWord)
  }

  predicate MentionsSentient(response: string)
  {
    Contains(ToLower(response), SentientWord) || Contains(ToLower(response), DobbyWord)
  }

  /** `!x` for an optional string: absent or empty. */
  predicate Missing(x: Option<string>)
  {
    x.None? || x.value == ""
  }

  /** `generateContextualSuggestions`: nothing without both texts; otherwise
      the follow-ups of every rule that fires, in rule order, or the generic
      ones when none fires, cut to the first three. */
  function Contextual(query: Option<string>, response: Option<string>): (r: seq<string>)
    ensures |r| <= MaxSuggestions
    ensures r == [] <==> Missing(query) || Missing(response)
  {
    if Missing(query) || Missing(response) then []
    else
      var q := query.value;
      var r := response.value;
      var fired := (if AsksExplanation(q) then ExplainFollowUps else [])
                   + (if MentionsCrypto(r) then CryptoFollowUps else [])
                   + (if MentionsCode(r) then CodeFollowUps else [])
                   + (if MentionsSentient(r) then SentientFollowUps else []);
      var all := if fired == [] then GenericFollowUps else fired;
      all[..if |all| < MaxSuggestions then |all| else MaxSuggestions]
  }

  /** Every rule gives three follow-ups, so the first rule that fires is the
      only one shown: the result is at most three suggestions, nothing when
      a text is missing, and otherwise the follow-ups of the first firing
      rule in the order question, crypto, code, Sentient, else the generic
      ones. */
  lemma FirstRuleWins(query: Option<string>, response: Option<string>)
    ensures |Contextual(query, response)| <= MaxSuggestions
    ensures Missing(query) || Missing(response) ==> Contextual(query, response) == []
    ensures !Missing(query) && !Missing(response) ==>
              var q := query.value;
              var r := response.value;
              Contextual(query, response)
              == if AsksExplanation(q) then ExplainFollowUps
                 else if MentionsCrypto(r) then CryptoFollowUps
                 else if MentionsCode(r) then CodeFollowUps
                 else if MentionsSentient(r) then SentientFollowUps
                 else GenericFollowUps
  {
    if !Missing(query) && !Missing(response) {
      var q := query.value;
      var r := response.value;
      FirstOfThrees(if AsksExplanation(q) then ExplainFollowUps else [],
                    if MentionsCrypto(r) then CryptoFollowUps else [],
                    if MentionsCode(r) then CodeFollowUps else [],
                    if MentionsSentient(r) then SentientFollowUps else []);
      assert GenericFollowUps[..3] == GenericFollowUps;
    }
  }

  /** Four rule outputs of three follow-ups or none: the first three of
      their concatenation are the first non-empty one. */
  lemma FirstOfThrees(a: seq<string>, b: seq<string>, c: seq<string>, d: seq<string>)
    requires a == [] || |a| == 3
    requires b == [] || |b| == 3
    requires c == [] || |c| == 3
    requires d == [] || |d| == 3
    ensures var f := a + b + c + d;
            f == [] || (|f| >= 3 && f[..3] == (if a != [] then a else if b != [] then b else if c != [] then c else d))
  {
    var f := a + b + c + d;
    if a != [] {
      assert f == a + (b + c + d);
    } else if b != [] {
      assert f == b + (c + d);
    } else if c != [] {
      assert f == c + d;
    }
  }

  /** The rules look at lower-cased texts only: changing the case of either
      text changes nothing. */
  lemma CaseInsensitive(query: string, response: string)
    ensures Contextual(Some(ToLower(query)), Some(ToLower(response))) == Contextual(Some(query), Some(response))
  {
    ToLowerIdempotent(query);
    ToLowerIdempotent(response);
  }

  /** The suggestion builder as written: successive pushes, then the slice. */
  method GenerateContextualSuggestions(query: Option<string>, response: Option<string>)
    returns (suggestions: seq<string>)
    ensures suggestions == Contextual(query, response)
  {
    if Missing(query) || Missing(response) {
      return [];
    }
    var lowerQuery := ToLower(query.value);
    var lowerResponse := ToLower(response.value);
    suggestions := [];
    if Contains(lowerQuery, WhatIs) || Contains(lowerQuery, Explain) {
      suggestions := suggestions + ExplainFollowUps;
    }
    if Contains(lowerResponse, CryptoWord) || Contains(lowerResponse, TokenWord)
       || Contains(lowerResponse, BlockchainWord) {
      suggestions := suggestions + CryptoFollowUps;
    }
    if Contains(lowerResponse, GitHubWord) || Contains(lowerResponse, RepositoryWord)
       || Contains(lowerResponse, CodeWord) {
      suggestions := suggestions + CodeFollowUps;
    }
    if Contains(lowerResponse, SentientWord) || Contains(lowerResponse, DobbyWord) {
      suggestions := suggestions + SentientFollowUps;
    }
    if |suggestions| == 0 {
      suggestions := GenericFollowUps;
    }
    suggestions := suggestions[..if |suggestions| < MaxSuggestions then |suggestions| else MaxSuggestions];
  }

  // ---------------------------------------------------------------------------
  // The panel

  datatype Role = User | Assistant

  /** A chat message as the panel sees it. */
  datatype Turn = Turn(role: Role, content: string)

  /** The content of the last message with the role, if any
      (`messages.filter(...).slice(-1)[0]?.content`). */
  function LastContent(ms: seq<Turn>, role: Role): (c: Option<string>)
    ensures c.None? <==> forall i :: 0 <= i < |ms| ==> ms[i].role != role
    ensures c.Some? ==> exists i :: 0 <= i < |ms| && ms[i].role == role && ms[i].content == c.value
                                    && forall j :: i < j < |ms| ==> ms[j].role != role
  {
    if ms == [] then None
    else if ms[|ms| - 1].role == role then Some(ms[|ms| - 1].content)
    else LastContent(ms[..|ms| - 1], role)
  }

  /** The conversation calls for new suggestions after each complete
      exchange: at least two messages, an even number of them. */
  predicate Regenerates(ms: seq<Turn>)
  {
    |ms| >= 2 && |ms| % 2 == 0
  }

  class SuggestionPanel {
    var suggestions: seq<string>

    constructor ()
      ensures suggestions == []
    {
      suggestions := [];
    }

    /** The effect on a new message list: regenerate after a complete
        exchange, keep the old suggestions otherwise. */
    method MessagesChanged(ms: seq<Turn>)
      modifies this
      ensures Regenerates(ms) ==>
                suggestions == Contextual(LastContent(ms, User), LastContent(ms, Assistant))
      ensures !Regenerates(ms) ==> suggestions == old(suggestions)
    {
      if |ms| >= 2 && |ms| % 2 == 0 {
        suggestions := GenerateContextualSuggestions(LastContent(ms, User), LastContent(ms, Assistant));
      }
    }

    /** The panel shows only with two or more messages and something to
        suggest. */
    predicate Visible(ms: seq<Turn>)
      reads this
    {
      |ms| >= 2 && |suggestions| > 0
    }
  }

  /** Once an exchange has regenerated the suggestions, the panel shows
      exactly when both the last question and the last answer have text. */
  lemma VisibleAfterExchange(p: SuggestionPanel, ms: seq<Turn>)
    requires Regenerates(ms)
    requires p.suggestions == Contextual(LastContent(ms, User), LastContent(ms, Assistant))
    ensures p.Visible(ms) <==> !Missing(LastContent(ms, User)) && !Missing(LastContent(ms, Assistant))
  {
  }
}
