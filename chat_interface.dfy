/** The chat screen: a transcript that opens with a welcome message and
  * grows by one user message and one reply per send. */
module ChatInterface {
  import opened Wrappers
  import opened Text
  import opened Types
  import GeminiService

  /** The placeholder a configured welcome text may hold for the user's
    * name; only its first occurrence is filled in. */
  const NAME_PLACEHOLDER := "${user.name}"

  /** The welcome used when the configuration gives none. */
  const DEFAULT_WELCOME_LEAD := "Salaam "
  const DEFAULT_WELCOME_TAIL := ", I am DeenGPT. How can I assist you in your spiritual journey today?"

  /** An occurrence of a pattern is found by the search. */
  lemma OccursAtContains(s: string, pat: string, i: nat)
    requires OccursAt(s, pat, i)
    ensures Contains(s, pat)
  {
  }

  /** Filling in the placeholder keeps the text around it and puts the name
    * where the placeholder was. */
  lemma FilledTemplate(m: string, name: string)
    requires Contains(m, NAME_PLACEHOLDER)
    ensures var r := ReplaceFirst(m, NAME_PLACEHOLDER, name);
      var i := IndexOf(m, NAME_PLACEHOLDER).value;
      && OccursAt(r, name, i)
      && r[..i] == m[..i]
      && r[i + |name|..] == m[i + |NAME_PLACEHOLDER|..]
      && Contains(r, name)
  {
    var r := ReplaceFirst(m, NAME_PLACEHOLDER, name);
    var i := IndexOf(m, NAME_PLACEHOLDER).value;
    assert OccursAt(r, name, i);
    OccursAtContains(r, name, i);
  }

  /** The default greeting names the user. */
  function DefaultWelcome(name: string): (r: string)
    ensures r == DEFAULT_WELCOME_LEAD + name + DEFAULT_WELCOME_TAIL
    ensures Contains(r, name)
  {
    var r := DEFAULT_WELCOME_LEAD + name + DEFAULT_WELCOME_TAIL;
    assert r[|DEFAULT_WELCOME_LEAD|..|DEFAULT_WELCOME_LEAD| + |name|] == name;
    OccursAtContains(r, name, |DEFAULT_WELCOME_LEAD|);
    r
  }

  /** The text of the welcome message. A configured text is used with its
    * first placeholder replaced by the name; an absent or empty one gives
    * the default greeting. Either way the user is named whenever the text
    * asks for it. */
  function WelcomeText(config: Option<ChatConfig>, name: string): (r: string)
    ensures config.None? || config.value.initialMessage == "" ==>
      r == DEFAULT_WELCOME_LEAD + name + DEFAULT_WELCOME_TAIL
    ensures config.Some? && config.value.initialMessage != "" && !Contains(config.value.initialMessage, NAME_PLACEHOLDER) ==>
      r == config.value.initialMessage
    ensures config.Some? && Contains(config.value.initialMessage, NAME_PLACEHOLDER) ==>
      var m := config.value.initialMessage;
      var i := IndexOf(m, NAME_PLACEHOLDER).value;
      && OccursAt(r, name, i)
      && r[..i] == m[..i]
      && r[i + |name|..] == m[i + |NAME_PLACEHOLDER|..]
    ensures config.None? || config.value.initialMessage == "" || Contains(config.value.initialMessage, NAME_PLACEHOLDER) ==>
      Contains(r, name)
  {
    if config.Some? && config.value.initialMessage != "" then
      var m := config.value.initialMessage;
      if Contains(m, NAME_PLACEHOLDER) then
        FilledTemplate(m, name);
        ReplaceFirst(m, NAME_PLACEHOLDER, name)
      else ReplaceFirst(m, NAME_PLACEHOLDER, name)
    else DefaultWelcome(name)
  }

  /** The send guard: the input must hold something other than white space,
    * and no reply may be pending. */
  function SendAllowed(input: string, loading: bool): (r: bool)
    ensures r <==> !Blank(input) && !loading
  {
    TrimEmptyIffBlank(input);
    Trim(input) != "" && !loading
  }

  /** The history handed to the service: role and text of every message. */
  function TurnsOf(messages: seq<Message>): (r: seq<GeminiService.Turn>)
    ensures |r| == |messages|
    ensures forall i :: 0 <= i < |r| ==> r[i].role == messages[i].role && r[i].text == messages[i].text
  {
    seq(|messages|, i requires 0 <= i < |messages| => GeminiService.Turn(messages[i].role, messages[i].text))
  }

  /** The reply is stamped one millisecond after the clock reading at its
    * arrival, so it never shares its id with the message it answers. */
  lemma MessageIdsDistinct(sentAt: nat, repliedAt: nat)
    requires sentAt <= repliedAt
    ensures NatToString(sentAt) != NatToString(repliedAt + 1)
  {
    if NatToString(sentAt) == NatToString(repliedAt + 1) {
      NatToStringInjective(sentAt, repliedAt + 1);
    }
  }

  /** Neighbouring messages come from different sides. */
  predicate Alternating(ms: seq<Message>)
  {
    forall i :: 0 < i < |ms| ==> ms[i].role != ms[i - 1].role
  }

  /** A message from the other side keeps the transcript alternating. */
  lemma {:induction false} AppendAlternating(ms: seq<Message>, m: Message)
    requires Alternating(ms)
    requires ms == [] || ms[|ms| - 1].role != m.role
    ensures Alternating(ms + [m])
  {
    var ns := ms + [m];
    forall i | 0 < i < |ns|
      ensures ns[i].role != ns[i - 1].role
    {
      if i < |ms| {
        assert ns[i] == ms[i] && ns[i - 1] == ms[i - 1];
      } else {
        assert ns[i] == m && ns[i - 1] == ms[|ms| - 1];
      }
    }
  }

  class ChatView {
    const user: User
    const config: Option<ChatConfig>
    var messages: seq<Message>
    var input: string
    var loading: bool

    /** Turns alternate, and a reply is pending exactly when the user spoke
      * last. */
    predicate Valid()
      reads this
    {
      && Alternating(messages)
      && (loading <==> messages != [] && messages[|messages| - 1].role == UserRole)
    }

    constructor (user: User, config: Option<ChatConfig>)
      ensures this.user == user && this.config == config
      ensures messages == [] && input == "" && !loading
      ensures Valid()
    {
      this.user := user;
      this.config := config;
      messages := [];
      input := "";
      loading := false;
    }

    /** The welcome effect: the transcript is reset to the one welcome
      * message. */
    method Welcome()
      modifies this`messages
      ensures messages == [Message("welcome", ModelRole, WelcomeText(config, user.name))]
      ensures !loading ==> Valid()
    {
      messages := [Message("welcome", ModelRole, WelcomeText(config, user.name))];
    }

    /** Typing into the input box. */
    method Type(text: string)
      modifies this`input
      ensures input == text
    {
      input := text;
    }

    /** The synchronous half of `handleSend`: the untrimmed input becomes a
      * user message stamped with the clock, the box is cleared and the
      * reply is awaited. `history` is the transcript as it was before. */
    method Send(now: nat) returns (sent: bool, history: seq<GeminiService.Turn>, text: string)
      modifies this`messages, this`input, this`loading
      ensures sent == SendAllowed(old(input), old(loading))
      ensures !sent ==> messages == old(messages) && input == old(input) && loading == old(loading)
      ensures sent ==>
        && messages == old(messages) + [Message(NatToString(now), UserRole, old(input))]
        && input == "" && loading
        && history == TurnsOf(old(messages)) && text == old(input)
      ensures old(Valid()) ==> Valid()
    {
      sent := SendAllowed(input, loading);
      if !sent {
        history, text := [], "";
        return;
      }
      var userMsg := Message(NatToString(now), UserRole, input);
      history := TurnsOf(messages);
      text := input;
      if Valid() {
        AppendAlternating(messages, userMsg);
      }
      messages := messages + [userMsg];
      input := "";
      loading := true;
    }

    /** The awaited half: the reply is appended and the guard released. */
    method ReplyArrived(now: nat, reply: string)
      modifies this`messages, this`loading
      ensures messages == old(messages) + [Message(NatToString(now + 1), ModelRole, reply)]
      ensures !loading
      ensures old(Valid()) && old(loading) ==> Valid()
    {
      var aiMsg := Message(NatToString(now + 1), ModelRole, reply);
      if Valid() && loading {
        AppendAlternating(messages, aiMsg);
      }
      messages := messages + [aiMsg];
      loading := false;
    }

    /** A whole `handleSend`: the service is asked with the earlier
      * transcript as history and answers with a text in every case, which
      * is appended after the user's message. */
    method HandleSend(sentAt: nat, repliedAt: nat, outcome: GeminiService.ChatOutcome, defaultInstruction: string)
      returns (request: Option<GeminiService.ChatRequest>)
      modifies this`messages, this`input, this`loading
      ensures !SendAllowed(old(input), old(loading)) ==>
        messages == old(messages) && input == old(input) && loading == old(loading) && request == None
      ensures SendAllowed(old(input), old(loading)) ==>
        && messages == old(messages) + [Message(NatToString(sentAt), UserRole, old(input)),
                                        Message(NatToString(repliedAt + 1), ModelRole, GeminiService.ReplyText(outcome))]
        && input == "" && !loading
        && request.Some? && request.value.history == GeminiService.HistoryContents(TurnsOf(old(messages)))
        && request.value.message == old(input)
      ensures old(Valid()) ==> Valid()
    {
      var sent, history, text := Send(sentAt);
      if !sent {
        return None;
      }
      var req, reply := GeminiService.SendMessage(history, text, config, defaultInstruction, outcome);
      ReplyArrived(repliedAt, reply);
      request := Some(req);
    }
  }
}
