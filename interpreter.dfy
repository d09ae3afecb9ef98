/**
 * The command interpreter (`callOpenAI` in src/background.js), less its
 * I/O: the language-model call is an outcome given as input, `JSON.parse`
 * is an optional action record supplied with the reply text, and the two
 * prompt texts are parameters. What remains is the choice of result, the
 * request's message list and the bounded conversation history.
 */
module Interpreter {
  import opened Wrappers
  import opened Text
  import opened Actions

  datatype Role = System | User | Assistant
  datatype Message = Message(role: Role, content: string)

  /** How the call to the chat-completions endpoint ended. */
  datatype ApiOutcome =
    | Threw                        // fetch, response.json() or the envelope threw
    | BadStatus(status: int)       // the response was not OK
    | Replied(content: string, parsed: Option<ActionRecord>)
      // OK: the reply text ('' when the envelope has none) and what JSON.parse made of it

  const NoKeyText := "Oops! I don't have an API key configured yet. Please add your OpenAI key to the .env file."
  const TroubleText := "Sorry, I ran into a problem connecting to my brain. Can you try again?"
  const NotSureText := "I'm not sure how to help with that."

  const HistoryLimit: nat := 10
  const HistoryKeep: nat := 6
  const HistorySent: nat := 4

  /**
   * The history invariant: at most ten entries, an even number of them,
   * alternating user and assistant and starting with the user.
   */
  predicate WellFormedHistory(h: seq<Message>) {
    && |h| <= HistoryLimit
    && |h| % 2 == 0
    && Alternates(h)
  }

  predicate IsSuffix<T(==)>(t: seq<T>, s: seq<T>) {
    |t| <= |s| && s[|s| - |t|..] == t
  }

  /** JavaScript's `slice(-n)` for n > 0: the last n entries, or all of them. */
  function LastN<T(==)>(s: seq<T>, n: nat): (r: seq<T>)
    ensures IsSuffix(r, s)
    ensures |r| == if |s| < n then |s| else n
  {
    if |s| <= n then s else s[|s| - n..]
  }

  /**
   * Push the user command and the assistant's reply, then, if the history
   * is longer than ten, keep its last six entries.
   */
  function Remember(h: seq<Message>, command: string, reply: string): (r: seq<Message>)
    ensures IsSuffix(r, h + [Message(User, command), Message(Assistant, reply)])
    ensures |r| >= 2 && r[|r| - 2..] == [Message(User, command), Message(Assistant, reply)]
    ensures |r| == if |h| + 2 > HistoryLimit then HistoryKeep else |h| + 2
    ensures WellFormedHistory(h) ==> WellFormedHistory(r)
  {
    var pushed := h + [Message(User, command), Message(Assistant, reply)];
    PushedAlternates(h, command, reply);
    if |pushed| > HistoryLimit then
      KeepAlternates(pushed);
      pushed[|pushed| - HistoryKeep..]
    else pushed
  }

  /** A user/assistant pair pushed onto a well-formed history keeps it alternating. */
  lemma PushedAlternates(h: seq<Message>, command: string, reply: string)
    ensures WellFormedHistory(h) ==>
      var p := h + [Message(User, command), Message(Assistant, reply)];
      |p| % 2 == 0 && Alternates(p)
  {
  }

  /** Even positions hold user entries, odd positions assistant entries. */
  predicate Alternates(p: seq<Message>) {
    forall i :: 0 <= i < |p| ==> p[i].role == (if i % 2 == 0 then User else Assistant)
  }

  /** Keeping the last six of an even-length alternating list keeps it alternating. */
  lemma KeepAlternates(p: seq<Message>)
    requires |p| > HistoryKeep
    ensures |p| % 2 == 0 && Alternates(p) ==> WellFormedHistory(p[|p| - HistoryKeep..])
  {
    var r := p[|p| - HistoryKeep..];
    if |p| % 2 == 0 && Alternates(p) {
      forall i | 0 <= i < |r| ensures r[i].role == (if i % 2 == 0 then User else Assistant) {
        assert r[i] == p[|p| - HistoryKeep + i];
      }
    }
  }

  /**
   * The messages sent with a request: the system prompt, the last four
   * history entries and the user prompt.
   */
  function Request(systemPrompt: string, h: seq<Message>, userPrompt: string): (r: seq<Message>)
    ensures 2 <= |r| <= 2 + HistorySent
    ensures r[0] == Message(System, systemPrompt) && r[|r| - 1] == Message(User, userPrompt)
  {
    [Message(System, systemPrompt)] + LastN(h, HistorySent) + [Message(User, userPrompt)]
  }

  /**
   * A request is the system message, then at most the last four history
   * entries in their original order, then the user message.
   */
  lemma {:induction false} RequestShape(systemPrompt: string, h: seq<Message>, userPrompt: string)
    ensures var r := Request(systemPrompt, h, userPrompt);
      && |r| == 2 + (if |h| < HistorySent then |h| else HistorySent)
      && r[0] == Message(System, systemPrompt)
      && r[|r| - 1] == Message(User, userPrompt)
      && IsSuffix(r[1..|r| - 1], h)
  {
    var r := Request(systemPrompt, h, userPrompt);
    assert r[1..|r| - 1] == LastN(h, HistorySent);
  }

  /**
   * With a well-formed history, everything after the system message
   * alternates user and assistant, starting and ending with the user.
   */
  lemma {:induction false} RequestAlternates(systemPrompt: string, h: seq<Message>, userPrompt: string)
    requires WellFormedHistory(h)
    ensures Alternates(Request(systemPrompt, h, userPrompt)[1..])
  {
    var tail := LastN(h, HistorySent);
    var rest := Request(systemPrompt, h, userPrompt)[1..];
    assert rest == tail + [Message(User, userPrompt)];
    var off := |h| - |tail|;
    assert off == 0 || off == |h| - HistorySent;
    assert |tail| % 2 == 0;
    forall i | 0 <= i < |rest| ensures rest[i].role == (if i % 2 == 0 then User else Assistant) {
      if i < |tail| {
        assert rest[i] == tail[i] == h[off + i];
        assert (off + i) % 2 == i % 2;
      }
    }
  }

  /**
   * The fallback for a reply that is not JSON: the reply with every `{`,
   * `}` and `"` removed and trimmed, or a fixed apology if nothing is left.
   */
  function CleanReply(text: string): (r: string)
    ensures r != ""
    ensures forall i :: 0 <= i < |r| ==> !IsJsonPunctuation(r[i])
    ensures r != NotSureText ==> r == Trim(StripJsonPunctuation(text))
    ensures Trim(StripJsonPunctuation(text)) != "" ==> r == Trim(StripJsonPunctuation(text))
  {
    var t := Trim(StripJsonPunctuation(text));
    if t == "" then NotSureText
    else
      TrimKeepsClean(StripJsonPunctuation(text));
      t
  }

  /** Trimming only cuts, so it adds no brace or double quote. */
  lemma TrimKeepsClean(s: string)
    requires forall i :: 0 <= i < |s| ==> !IsJsonPunctuation(s[i])
    ensures var t := Trim(s); forall i :: 0 <= i < |t| ==> !IsJsonPunctuation(t[i])
  {
    var t := Trim(s);
    var j := TrimOffset(s);
    forall i | 0 <= i < |t| ensures !IsJsonPunctuation(t[i]) {
      assert t[i] == s[j + i];
    }
  }

  /**
   * The record `callOpenAI` resolves to: the model's parsed record, or
   * else a `none` action with something to say.
   */
  function Interpret(keyConfigured: bool, outcome: ApiOutcome): (r: ActionRecord)
    ensures (keyConfigured && outcome.Replied? && outcome.parsed == Some(r))
      || (r.action == Some("none") && Truthy(r.response))
    ensures keyConfigured && outcome.Replied? && outcome.parsed.Some? ==> r == outcome.parsed.value
    ensures keyConfigured && outcome.Replied? && outcome.parsed.None? ==> r == Say(CleanReply(outcome.content))
  {
    if !keyConfigured then Say(NoKeyText)
    else match outcome
      case Threw => Say(TroubleText)
      case BadStatus(_) => Say(TroubleText)
      case Replied(text, parsed) =>
        match parsed
        case Some(record) => record
        case None => Say(CleanReply(text))
  }

  /** The conversation history after `callOpenAI`. */
  function HistoryAfter(keyConfigured: bool, h: seq<Message>, command: string, outcome: ApiOutcome): seq<Message> {
    if keyConfigured && outcome.Replied? then Remember(h, command, outcome.content) else h
  }

  /**
   * Every failure path (no key, a bad status, anything thrown) answers
   * `none` with a fixed text and leaves the history untouched.
   */
  lemma FailureLeavesHistory(keyConfigured: bool, h: seq<Message>, command: string, outcome: ApiOutcome)
    requires !keyConfigured || !outcome.Replied?
    ensures Interpret(keyConfigured, outcome) == Say(if keyConfigured then TroubleText else NoKeyText)
    ensures HistoryAfter(keyConfigured, h, command, outcome) == h
  {
  }

  /**
   * A successful reply is remembered whether or not it parses: the history
   * ends with the command and the reply text.
   */
  lemma ReplyIsRemembered(h: seq<Message>, command: string, outcome: ApiOutcome)
    requires outcome.Replied?
    ensures var r := HistoryAfter(true, h, command, outcome);
      r[|r| - 2..] == [Message(User, command), Message(Assistant, outcome.content)]
  {
  }

  /**
   * Whatever happens, the history stays well formed, and it is always a
   * suffix of the old history with whatever this call pushed.
   */
  lemma {:induction false} HistoryStaysBounded(keyConfigured: bool, h: seq<Message>, command: string, outcome: ApiOutcome)
    requires WellFormedHistory(h)
    ensures WellFormedHistory(HistoryAfter(keyConfigured, h, command, outcome))
    ensures var r := HistoryAfter(keyConfigured, h, command, outcome);
      IsSuffix(r, h) || IsSuffix(r, h + [Message(User, command), Message(Assistant, outcome.content)])
  {
    if !(keyConfigured && outcome.Replied?) {
      assert h[|h| - |h|..] == h;
    }
  }

  /**
   * The interpreter's own answers always carry something to say: every
   * result that is not the model's parsed record is `none` with a
   * non-empty response.
   */
  lemma OwnAnswersAreSpeakable(keyConfigured: bool, outcome: ApiOutcome)
    requires !(keyConfigured && outcome.Replied? && outcome.parsed.Some?)
    ensures var r := Interpret(keyConfigured, outcome);
      r.action == Some("none") && Truthy(r.response)
  {
  }

  /** A parsed reply is passed on unchanged, whatever fields it lacks. */
  lemma ParsedReplyPassesThrough(text: string, record: ActionRecord)
    ensures Interpret(true, Replied(text, Some(record))) == record
  {
  }
}
