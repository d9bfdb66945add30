/**
 * The help chatbot: a first-match keyword responder over a fixed knowledge
 * base, a random fallback when nothing matches, and the in-memory list of
 * the messages saved in this session.
 */
module AiChatbot {

  import opened Wrappers

  /** The entries of the knowledge base. */
  datatype Topic = FluxFi | GettingStarted | SupportedAssets | Vaults | Fees | Polygon | SideShift | Security | Withdraw | Apy | Risks | Support

  /** The text of each knowledge-base entry. */
  function KnowledgeBase(t: Topic): string {
    match t
    case FluxFi =>
      "FluxFi is an AI-powered cross-chain yield router that turns idle crypto into automatic passive income. We support BTC, ETH, SOL, MATIC, and USDC."
    case GettingStarted =>
      "To get started with FluxFi: 1) Connect your wallet 2) Sign in or create an account 3) Activate yield on idle assets 4) Watch your earnings grow automatically."
    case SupportedAssets =>
      "We support BTC, ETH, SOL, MATIC, and USDC across Bitcoin, Ethereum, Solana, and Polygon networks."
    case Vaults =>
      "We offer yield farming through Aave (5.2% APY), Yearn (4.8% APY), Quickswap (6.5% APY), and Beefy (5.9% APY) on Polygon."
    case Fees =>
      "FluxFi charges a minimal 0.5% swap fee and 10% of the yields earned. No deposit or withdrawal fees."
    case Polygon =>
      "Polygon is a Layer 2 scaling solution for Ethereum. We use it for fast, low-cost transactions and access to top-tier DeFi protocols."
    case SideShift =>
      "SideShift is a cross-chain liquidity aggregator we use to swap assets from any blockchain to Polygon USDC instantly and securely."
    case Security =>
      "Your funds are secure. We use smart contracts from audited protocols (Aave, Yearn). Your private keys remain in your wallet."
    case Withdraw =>
      "You can withdraw anytime. Your funds are automatically swapped back to your original token and sent to your wallet within minutes."
    case Apy =>
      "APY (Annual Percentage Yield) is the yearly return on your investment. Our displayed APYs are current rates that may fluctuate based on market conditions."
    case Risks =>
      "DeFi involves risks including smart contract vulnerabilities, market volatility, and protocol risks. We recommend starting with small amounts."
    case Support =>
      "Need help? Check our FAQ or contact our support team. For urgent issues, please reach out through our help page."
  }

  /**
   * The keyword table, in declaration order; the first keyword found wins.
   * It is written as its key column and its answer column.
   */
  const KeywordKeys: seq<string> := [
    "what is",
    "how do",
    "getting started",
    "supported assets",
    "assets",
    "vaults",
    "yields",
    "fees",
    "polygon",
    "sideshift",
    "security",
    "safe",
    "withdraw",
    "apy",
    "returns",
    "risks",
    "risk",
    "help",
    "support"
  ]

  const KeywordTopics: seq<Topic> := [
    FluxFi,
    GettingStarted,
    GettingStarted,
    SupportedAssets,
    SupportedAssets,
    Vaults,
    Vaults,
    Fees,
    Polygon,
    SideShift,
    Security,
    Security,
    Withdraw,
    Apy,
    Apy,
    Risks,
    Risks,
    Support,
    Support
  ]

  const Keywords: seq<(string, Topic)> := Zip(KeywordKeys, KeywordTopics)

  function Zip<A, B>(a: seq<A>, b: seq<B>): (r: seq<(A, B)>)
    requires |a| == |b|
    ensures |r| == |a|
    ensures forall i {:trigger r[i]} :: 0 <= i < |a| ==> r[i] == (a[i], b[i])
  {
    seq(|a|, i requires 0 <= i < |a| => (a[i], b[i]))
  }

  /** The number of fallback replies. */
  const FallbackCount: nat := 4

  /** The fallback replies; only the first quotes the message. */
  function FallbackText(userMessage: string, index: nat): string {
    if index == 0 then "I'm not sure about \"" + userMessage + "\", but I can help with questions about yield farming, asset activation, withdrawal, or supported protocols. What would you like to know?"
    else if index == 1 then "Great question! To help you better, could you clarify if you're asking about our vaults, fees, security, or how to get started?"
    else if index == 2 then "I'm here to help! Ask me about FluxFi features, supported assets, yields, Polygon, SideShift, or how to maximize your earnings."
    else "That's a good question. Feel free to ask about our services, available vaults, how withdrawals work, or any other FluxFi features."
  }

  /** `Math.floor(random * 4)` for a draw `random` in [0, 1). */
  function FallbackIndex(random: real): (index: nat)
    requires 0.0 <= random < 1.0
    ensures index < FallbackCount
  {
    (random * 4.0).Floor
  }

  /** One of the fallback replies, picked by the draw. */
  function GenerateFallbackResponse(userMessage: string, random: real): (text: string)
    requires 0.0 <= random < 1.0
    ensures exists i :: 0 <= i < FallbackCount && text == FallbackText(userMessage, i)
  {
    FallbackText(userMessage, FallbackIndex(random))
  }

  // ---------------------------------------------------------------------
  // Matching
  // ---------------------------------------------------------------------

  /** Lower-casing of one character, for the letters A to Z. */
  function ToLowerChar(c: char): (l: char)
    ensures !('A' <= l <= 'Z')
    ensures 'A' <= c <= 'Z' || l == c
  {
    if 'A' <= c <= 'Z' then (c as int + 32) as char else c
  }

  /** `s.toLowerCase()`, for the letters A to Z. */
  function ToLower(s: string): (r: string)
    ensures |r| == |s|
    ensures forall i {:trigger r[i]} :: 0 <= i < |s| ==> r[i] == ToLowerChar(s[i])
    ensures forall i {:trigger r[i]} :: 0 <= i < |r| ==> !('A' <= r[i] <= 'Z')
    ensures forall i {:trigger s[i]} :: 0 <= i < |s| && !('A' <= s[i] <= 'Z') ==> r[i] == s[i]
    ensures forall i {:trigger s[i]} :: 0 <= i < |s| && 'A' <= s[i] <= 'Z' ==> r[i] as int == s[i] as int + 32
  {
    seq(|s|, i requires 0 <= i < |s| => ToLowerChar(s[i]))
  }

  /** Lower-casing twice is lower-casing once. */
  lemma ToLowerIdempotent(s: string)
    ensures ToLower(ToLower(s)) == ToLower(s)
  {
    forall i | 0 <= i < |s| ensures ToLower(ToLower(s))[i] == ToLower(s)[i] {
      var c := s[i];
      if 'A' <= c <= 'Z' {
        assert ToLowerChar(c) == (c as int + 32) as char;
      }
    }
  }

  /** `key` occurs in `s` starting at position `i`. */
  predicate OccursAt(s: string, key: string, i: int) {
    0 <= i && i + |key| <= |s| && s[i..i + |key|] == key
  }

  /** `s.includes(key)`: try every starting position from the left. */
  predicate Includes(s: string, key: string)
    ensures key == [] ==> Includes(s, key)
    ensures Includes(s, key) ==> |key| <= |s|
    decreases |s|
  {
    |key| <= |s| && (s[..|key|] == key || Includes(s[1..], key))
  }

  /** `Includes` holds exactly when the key occurs at some position. */
  lemma {:induction false} IncludesIffOccurs(s: string, key: string)
    ensures Includes(s, key) <==> exists i :: OccursAt(s, key, i)
    decreases |s|
  {
    if |key| <= |s| {
      assert OccursAt(s, key, 0) <==> s[..|key|] == key;
      if |s| > 0 {
        IncludesIffOccurs(s[1..], key);
        forall i | OccursAt(s[1..], key, i) ensures OccursAt(s, key, i + 1) {
          assert s[1..][i..i + |key|] == s[i + 1..i + 1 + |key|];
        }
        forall i | OccursAt(s, key, i) && i > 0 ensures OccursAt(s[1..], key, i - 1) {
          assert s[1..][i - 1..i - 1 + |key|] == s[i..i + |key|];
        }
      }
    } else {
      forall i ensures !OccursAt(s, key, i) { }
    }
  }

  /** The position in `keys` of the first keyword that occurs in `s`, if any. */
  function FirstMatch(s: string, keys: seq<(string, Topic)>): (r: Option<nat>)
    ensures r.Some? ==> r.value < |keys| && Includes(s, keys[r.value].0)
    ensures r.Some? ==> forall j :: 0 <= j < r.value ==> !Includes(s, keys[j].0)
    ensures r.None? ==> forall j :: 0 <= j < |keys| ==> !Includes(s, keys[j].0)
  {
    if keys == [] then None
    else if Includes(s, keys[0].0) then Some(0)
    else
      match FirstMatch(s, keys[1..])
      case None => None
      case Some(k) => Some(k + 1)
  }

  /**
   * The knowledge-base entry a message is answered from: the entry of the
   * first keyword, in table order, that occurs in the lower-cased message.
   */
  function Answer(userMessage: string): (t: Option<Topic>)
    ensures t.Some? <==> exists k :: 0 <= k < |Keywords| && Includes(ToLower(userMessage), Keywords[k].0)
  {
    match FirstMatch(ToLower(userMessage), Keywords)
    case Some(k) => Some(Keywords[k].1)
    case None => None
  }

  /** The reply to a message: its knowledge-base answer, otherwise a fallback picked by the draw. */
  function GenerateResponse(userMessage: string, random: real): (response: string)
    requires 0.0 <= random < 1.0
    ensures Answer(userMessage).Some? ==> response == KnowledgeBase(Answer(userMessage).value)
    ensures Answer(userMessage).None? ==> response == FallbackText(userMessage, FallbackIndex(random))
  {
    var lowerMessage := ToLower(userMessage);
    match FirstMatch(lowerMessage, Keywords)
    case Some(k) => KnowledgeBase(Keywords[k].1)
    case None => GenerateFallbackResponse(userMessage, random)
  }

  // ---------------------------------------------------------------------
  // Properties of the responder
  // ---------------------------------------------------------------------

  /** A keyword that occurs means the reply comes from it or from an earlier keyword. */
  lemma EarlierKeywordsWin(s: string, k: nat)
    requires k < |Keywords| && Includes(s, Keywords[k].0)
    ensures FirstMatch(s, Keywords).Some? && FirstMatch(s, Keywords).value <= k
  {
  }

  /** Messages that lower-case alike get the same answer. */
  lemma MatchIgnoresCase(m1: string, m2: string)
    requires ToLower(m1) == ToLower(m2)
    ensures Answer(m1) == Answer(m2)
  {
  }

  /** Lower-casing a message first changes nothing about its answer. */
  lemma AnswerOfLowerCase(userMessage: string)
    ensures Answer(ToLower(userMessage)) == Answer(userMessage)
  {
    ToLowerIdempotent(userMessage);
  }

  /** A message that mentions "safe" gets the security answer or an earlier one, never the withdrawal answer. */
  lemma SafeBeatsWithdraw(userMessage: string)
    requires Includes(ToLower(userMessage), "safe")
    ensures Answer(userMessage).Some? && Answer(userMessage) != Some(Withdraw)
  {
    assert Keywords[11].0 == "safe";
    EarlierKeywordsWin(ToLower(userMessage), 11);
    var k := FirstMatch(ToLower(userMessage), Keywords).value;
    assert KeywordTopics[..12] == [FluxFi, GettingStarted, GettingStarted, SupportedAssets, SupportedAssets,
                                   Vaults, Vaults, Fees, Polygon, SideShift, Security, Security];
    assert KeywordTopics[k] in KeywordTopics[..12];
  }

  /** A message that mentions "what is" gets the introduction, whatever else it mentions. */
  lemma WhatIsGetsIntroduction(userMessage: string)
    requires Includes(ToLower(userMessage), "what is")
    ensures Answer(userMessage) == Some(FluxFi)
  {
    assert Keywords[0].0 == "what is";
    EarlierKeywordsWin(ToLower(userMessage), 0);
  }

  /** The first fallback quotes the message. */
  lemma FirstFallbackQuotesMessage(userMessage: string)
    ensures Includes(FallbackText(userMessage, 0), userMessage)
  {
    var text := FallbackText(userMessage, 0);
    assert OccursAt(text, userMessage, 20);
    IncludesIffOccurs(text, userMessage);
  }

  // ---------------------------------------------------------------------
  // The session's message list
  // ---------------------------------------------------------------------

  datatype Role = User | Assistant

  datatype ChatMessage = ChatMessage(id: string, userId: string, role: Role, content: string, timestamp: string)

  /** The chatbot's local copy of the conversation; the stored chat table is not part of this model. */
  class Chatbot {
    var conversationHistory: seq<ChatMessage>

    constructor ()
      ensures conversationHistory == []
    {
      conversationHistory := [];
    }

    /** Record a message; `id` and `timestamp` are the generated identifier and the current time. */
    method SaveChatMessage(userId: string, role: Role, content: string, id: string, timestamp: string)
      returns (message: ChatMessage)
      modifies this
      ensures message == ChatMessage(id, userId, role, content, timestamp)
      ensures conversationHistory == old(conversationHistory) + [message]
    {
      message := ChatMessage(id, userId, role, content, timestamp);
      conversationHistory := conversationHistory + [message];
    }

    /** Forget the conversation. */
    method ClearHistory(userId: string)
      modifies this
      ensures conversationHistory == []
    {
      conversationHistory := [];
    }
  }
}
