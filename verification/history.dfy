/** The Gemini chat history built by `ChatbotService`: `formatHistory` turns the saved
    conversation into alternating user/model entries, and `generateGeminiResponse` seeds
    an empty history with the persona prompt and a canned acknowledgement. */
module GeminiHistory {
  import opened Options

  /** `Gemini\Enums\Role`, restricted to the two roles the service uses. */
  datatype Role = User | Model

  /** A `Content::parse(part: ..., role: ...)` value: one text part with its role. */
  datatype Content = Content(role: Role, text: string)

  /** One saved exchange: `user_message` and the nullable `ai_response_raw`. */
  datatype Message = Message(userMessage: string, aiResponseRaw: Option<string>)

  /** The persona prompt sent as the first user entry of a new conversation. */
  const SystemPrompt: string :=
    "You are an expert AI Project Consultant named 'CodeCraft AI'. Your personality is professional, encouraging, and highly knowledgeable about software development, specifically with Laravel, Vue.js, React, and mobile technologies. " +
    "Your primary goal is to help potential clients explore and define their software project ideas. " +
    "You are the first point of contact for a development agency. " +
    "Follow these rules strictly: 1. **Introduce Yourself:** In your very first message, and only the first message, briefly introduce yourself as \"CodeCraft AI, your AI Project Consultant.\" 2. **Stay On-Topic:** Always steer the conversation back to software projects. If the user asks about the weather, briefly answer and then ask, \"Now, returning to your project idea, what specific features were you thinking about?\" 3. **Ask Clarifying Questions:** Never assume. Always ask probing questions to better understand the user's needs. Ask about target users, key features, budget ideas, and desired timelines. " +
    "4. **Provide Structured Advice:** When giving recommendations, use Markdown for clarity. Use bolding for key terms (`**Laravel**`), numbered lists for steps, and bullet points for features. " +
    "5. **Give Estimates with Disclaimers:** You can provide *rough* estimates for budget and timelines, but you MUST ALWAYS include a disclaimer like, \"Please note that this is a preliminary estimate. A detailed quote will be provided after a formal discovery call.\" 6. **Maintain Your Persona:** Do NOT mention that you are a large language model or a Google product. You are 'CodeCraft AI'. " +
    "7. **End with an Engaging Question:** Always end your responses with a question to keep the conversation moving forward."

  /** The model entry that follows the persona prompt. */
  const ReadyReply: string := "OK, I am ready to act as CodeCraft AI."

  /** The model text used when a saved exchange has no raw AI response. */
  const DefaultReply: string := "OK."

  /** `$message['ai_response_raw'] ?? 'OK.'`. */
  function ModelText(m: Message): string
  {
    m.aiResponseRaw.GetOr(DefaultReply)
  }

  /** The two entries `formatHistory` appends for one saved exchange. */
  function Exchange(m: Message): seq<Content>
  {
    [Content(User, m.userMessage), Content(Model, ModelText(m))]
  }

  /** The history `formatHistory` returns for `conv`. */
  function Turns(conv: seq<Message>): (r: seq<Content>)
    ensures |r| == 2 * |conv|
  {
    if conv == [] then [] else Turns(conv[..|conv| - 1]) + Exchange(conv[|conv| - 1])
  }

  /** `formatHistory`: one user entry and one model entry per saved exchange. */
  method FormatHistory(conv: seq<Message>) returns (history: seq<Content>)
    ensures history == Turns(conv)
  {
    history := [];
    for i := 0 to |conv|
      invariant history == Turns(conv[..i])
    {
      assert conv[..i + 1][..i] == conv[..i];
      history := history + [Content(User, conv[i].userMessage)];
      history := history + [Content(Model, ModelText(conv[i]))];
    }
    assert conv[..|conv|] == conv;
  }

  /** Entry `2i` is the `i`-th user message verbatim, entry `2i + 1` its raw AI response,
      or `OK.` when there is none. */
  lemma {:induction false} TurnsAt(conv: seq<Message>)
    ensures forall i :: 0 <= i < |conv| ==>
      Turns(conv)[2 * i] == Content(User, conv[i].userMessage) &&
      Turns(conv)[2 * i + 1] == Content(Model, match conv[i].aiResponseRaw
                                               case Some(t) => t
                                               case None => "OK.")
  {
    if conv != [] {
      var init := conv[..|conv| - 1];
      TurnsAt(init);
      forall i | 0 <= i < |conv| - 1
        ensures Turns(conv)[2 * i] == Turns(init)[2 * i]
        ensures Turns(conv)[2 * i + 1] == Turns(init)[2 * i + 1]
        ensures conv[i] == init[i]
      {
      }
    }
  }

  /** Entries alternate: user at even positions, model at odd ones. */
  lemma TurnsAlternate(conv: seq<Message>)
    ensures forall k :: 0 <= k < |Turns(conv)| ==>
      Turns(conv)[k].role == if k % 2 == 0 then User else Model
  {
    TurnsAt(conv);
    forall k | 0 <= k < |Turns(conv)|
      ensures Turns(conv)[k].role == if k % 2 == 0 then User else Model
    {
      var i := k / 2;
      assert k == 2 * i || k == 2 * i + 1;
    }
  }

  /** Message order is kept: the history of a concatenation is the concatenation of
      the histories. */
  lemma {:induction false} TurnsAppend(a: seq<Message>, b: seq<Message>)
    ensures Turns(a + b) == Turns(a) + Turns(b)
  {
    if b != [] {
      var n := |b| - 1;
      assert (a + b)[..|a + b| - 1] == a + b[..n];
      assert (a + b)[|a + b| - 1] == b[n];
      TurnsAppend(a, b[..n]);
    } else {
      assert a + b == a;
    }
  }

  /** The exchanges agree in user message and model text, position by position. */
  predicate SameTexts(a: seq<Message>, b: seq<Message>)
  {
    |a| == |b| && forall i :: 0 <= i < |a| ==>
      a[i].userMessage == b[i].userMessage && ModelText(a[i]) == ModelText(b[i])
  }

  /** Two conversations give the same history exactly when they have the same user
      messages and the same model texts, exchange by exchange. */
  lemma TurnsDetermineTexts(a: seq<Message>, b: seq<Message>)
    ensures Turns(a) == Turns(b) <==> SameTexts(a, b)
  {
    if SameTexts(a, b) {
      SameTextsSameTurns(a, b);
    }
    if Turns(a) == Turns(b) {
      SameTurnsSameTexts(a, b);
    }
  }

  lemma {:induction false} SameTextsSameTurns(a: seq<Message>, b: seq<Message>)
    requires SameTexts(a, b)
    ensures Turns(a) == Turns(b)
  {
    if a != [] {
      var n := |a| - 1;
      assert SameTexts(a[..n], b[..n]) by {
        forall i | 0 <= i < n ensures a[..n][i] == a[i] && b[..n][i] == b[i] { }
      }
      SameTextsSameTurns(a[..n], b[..n]);
      assert Exchange(a[n]) == Exchange(b[n]);
    }
  }

  lemma SameTurnsSameTexts(a: seq<Message>, b: seq<Message>)
    requires Turns(a) == Turns(b)
    ensures SameTexts(a, b)
  {
    TurnsAt(a);
    TurnsAt(b);
    forall i | 0 <= i < |a|
      ensures a[i].userMessage == b[i].userMessage && ModelText(a[i]) == ModelText(b[i])
    {
      assert Turns(a)[2 * i] == Turns(b)[2 * i];
      assert Turns(a)[2 * i + 1] == Turns(b)[2 * i + 1];
    }
  }

  /** The two entries that open a conversation with no saved exchanges. */
  const Seed: seq<Content> := [Content(User, SystemPrompt), Content(Model, ReadyReply)]

  /** The history handed to `startChat`. */
  function StartingHistory(conv: seq<Message>): seq<Content>
  {
    if Turns(conv) == [] then Seed else Turns(conv)
  }

  /** `formatHistory` followed by the seed-if-empty block. */
  method StartHistory(conv: seq<Message>) returns (history: seq<Content>)
    ensures history == StartingHistory(conv)
  {
    history := FormatHistory(conv);
    if |history| == 0 {
      history := history + [Content(User, SystemPrompt)];
      history := history + [Content(Model, ReadyReply)];
    }
  }

  /** Only a conversation with no saved exchanges is seeded; any other is passed through. */
  lemma SeededIffNew(conv: seq<Message>)
    ensures conv == [] ==> StartingHistory(conv) == Seed
    ensures conv != [] ==> StartingHistory(conv) == Turns(conv)
  {
  }

  /** The history handed to `startChat` is never empty, has even length, opens with a
      user entry and alternates user and model entries. */
  lemma StartingHistoryAlternates(conv: seq<Message>)
    ensures var h := StartingHistory(conv);
      |h| >= 2 && |h| % 2 == 0 &&
      forall k :: 0 <= k < |h| ==> h[k].role == if k % 2 == 0 then User else Model
  {
    TurnsAlternate(conv);
  }
}
