/**
 * `AppProvider`, the chat state of the client: the message log, the chat
 * input, whether the assistant is typing, and the current view.  Sending a
 * message is split at its `await`: the user's message is logged first, the
 * assistant's answer (or an apology) when generation settles.  The clock
 * (`Date.now()`, used as message id) and the generation flow's outcome are
 * inputs.
 */
module AppContext {
  import Text

  datatype Sender = User | Ai

  /** A message's text, or the assistant's answer: a playlist description and a list of songs. */
  datatype Content = Plain(text: string) | PlaylistReply(description: string, songs: seq<string>)

  datatype Message = Message(id: int, sender: Sender, content: Content)

  datatype View = Home | Chat

  /** How `generatePlaylist` settles. */
  datatype Generation = Generated(description: string, songs: seq<string>) | GenerationFailed

  const Apology := "Sorry, I had some trouble generating a playlist. Please try again."

  datatype Snapshot = Snapshot(messages: seq<Message>, inputValue: string, isAiTyping: bool, currentView: View)

  const Initial := Snapshot([], "", false, Home)

  /** The assistant's message for a generation outcome. */
  function AiReply(g: Generation): Content {
    match g
    case Generated(description, songs) => PlaylistReply(description, songs)
    case GenerationFailed => Plain(Apology)
  }

  /** `addMessage`: one message at the end, stamped with the clock. */
  function Added(s: Snapshot, sender: Sender, content: Content, now: int): Snapshot {
    s.(messages := s.messages + [Message(now, sender, content)])
  }

  /** `sendMessage` up to its `await`: nothing for blank text, else the chat view, the user's message, a cleared input, typing. */
  function BeginSend(s: Snapshot, text: string, now: int): Snapshot {
    if Text.Trim(text) == "" then s
    else Added(s, User, Plain(text), now).(inputValue := "", isAiTyping := true, currentView := Chat)
  }

  /** `sendMessage` after its `await`: the assistant's message, then typing ends (`finally`). */
  function FinishSend(s: Snapshot, g: Generation, now: int): Snapshot {
    Added(s, Ai, AiReply(g), now).(isAiTyping := false)
  }

  function Send(s: Snapshot, text: string, g: Generation, sentAt: int, repliedAt: int): Snapshot {
    if Text.Trim(text) == "" then s else FinishSend(BeginSend(s, text, sentAt), g, repliedAt)
  }

  /** The suggestions object of `suggestMood`. */
  const Suggestions: map<string, string> := map[
    "happy" := "I'm feeling happy and want some upbeat music!",
    "chill" := "I want to relax with some chill music",
    "focused" := "I need music to help me focus while working",
    "nostalgic" := "I'm feeling nostalgic, play some throwback songs",
    "energetic" := "I need high-energy music for my workout",
    "romantic" := "I'm in a romantic mood, play some love songs"]

  /** `suggestions[mood] || `Tell me about music for a ${mood} mood.``. */
  function MoodPrompt(mood: string): string {
    if mood in Suggestions then Suggestions[mood] else "Tell me about music for a " + mood + " mood."
  }

  /** `suggestMood`: the chat input holds the mood's prompt. */
  function Suggested(s: Snapshot, mood: string): Snapshot {
    s.(inputValue := MoodPrompt(mood))
  }

  /** The provider's state, updated in place by its callbacks. */
  class App {
    var messages: seq<Message>
    var inputValue: string
    var isAiTyping: bool
    var currentView: View

    constructor ()
      ensures State() == Initial
    {
      messages, inputValue, isAiTyping, currentView := [], "", false, Home;
    }

    function State(): Snapshot
      reads this
    {
      Snapshot(messages, inputValue, isAiTyping, currentView)
    }

    /** `addMessage(type, text)`: one message at the end, stamped with the clock. */
    method AddMessage(sender: Sender, content: Content, now: int)
      modifies this
      ensures State() == Added(old(State()), sender, content, now)
    {
      messages := messages + [Message(now, sender, content)];
    }

    method SetInputValue(value: string)
      modifies this
      ensures State() == old(State()).(inputValue := value)
    {
      inputValue := value;
    }

    /** The synchronous part of `sendMessage`; it answers whether generation was started. */
    method BeginSendMessage(text: string, now: int) returns (started: bool)
      modifies this
      ensures started <==> Text.Trim(text) != ""
      ensures State() == BeginSend(old(State()), text, now)
    {
      if Text.Trim(text) == "" {
        return false;
      }
      currentView := Chat;
      AddMessage(User, Plain(text), now);
      inputValue := "";
      isAiTyping := true;
      return true;
    }

    /** The part of `sendMessage` after generation settles. */
    method FinishSendMessage(g: Generation, now: int)
      modifies this
      ensures State() == FinishSend(old(State()), g, now)
    {
      match g {
        case Generated(description, songs) => AddMessage(Ai, PlaylistReply(description, songs), now);
        case GenerationFailed => AddMessage(Ai, Plain(Apology), now);
      }
      isAiTyping := false;
    }

    /** `sendMessage(text)` run to completion. */
    method SendMessage(text: string, g: Generation, sentAt: int, repliedAt: int)
      modifies this
      ensures State() == Send(old(State()), text, g, sentAt, repliedAt)
    {
      var started := BeginSendMessage(text, sentAt);
      if started {
        FinishSendMessage(g, repliedAt);
      }
    }

    /** `suggestMood(mood)`: fills the chat input with the mood's prompt. */
    method SuggestMood(mood: string)
      modifies this
      ensures State() == Suggested(old(State()), mood)
    {
      SetInputValue(MoodPrompt(mood));
    }
  }

  // ---------------------------------------------------------------------------
  // Properties

  /** Blank text (empty or whitespace only, as `trim` sees it) changes nothing; any other text changes the state. */
  lemma SendBlankChangesNothing(s: Snapshot, text: string, g: Generation, sentAt: int, repliedAt: int)
    ensures Send(s, text, g, sentAt, repliedAt) == s <==> Text.IsBlank(text)
  {
    Text.TrimEmptyIffBlank(text);
    if !Text.IsBlank(text) {
      assert |Send(s, text, g, sentAt, repliedAt).messages| == |s.messages| + 2;
    }
  }

  /**
   * Non-blank text appends exactly two messages, the user's then the
   * assistant's (its answer, or the apology when generation failed); the
   * view is the chat, the input is cleared, and typing has ended.  While
   * generation is pending, typing is shown.
   */
  lemma SendAppendsTwo(s: Snapshot, text: string, g: Generation, sentAt: int, repliedAt: int)
    requires !Text.IsBlank(text)
    ensures BeginSend(s, text, sentAt).isAiTyping
    ensures Send(s, text, g, sentAt, repliedAt)
         == Snapshot(s.messages + [Message(sentAt, User, Plain(text)), Message(repliedAt, Ai, AiReply(g))], "", false, Chat)
    ensures g.GenerationFailed? ==> Send(s, text, g, sentAt, repliedAt).messages[|s.messages| + 1].content == Plain(Apology)
  {
    Text.TrimEmptyIffBlank(text);
  }

  /**
   * Different moods give different prompts: each of the six keys has its own
   * sentence, the template names any other mood, and the template ends with
   * `.` where none of the six sentences does.
   */
  lemma MoodPromptInjective(m1: string, m2: string)
    ensures MoodPrompt(m1) == MoodPrompt(m2) ==> m1 == m2
  {
    var prefix := "Tell me about music for a ";
    if MoodPrompt(m1) == MoodPrompt(m2) {
      if m1 !in Suggestions && m2 !in Suggestions {
        assert |m1| == |m2|;
        assert m1 == MoodPrompt(m1)[|prefix|..|prefix| + |m1|];
        assert m2 == MoodPrompt(m2)[|prefix|..|prefix| + |m2|];
      } else if m1 in Suggestions && m2 !in Suggestions {
        KnownPromptEnding(m1);
      } else if m1 !in Suggestions && m2 in Suggestions {
        KnownPromptEnding(m2);
      }
    }
  }

  /** None of the six sentences ends with `.`. */
  lemma KnownPromptEnding(mood: string)
    requires mood in Suggestions
    ensures var p := Suggestions[mood]; |p| > 0 && p[|p| - 1] != '.'
  {
    assert "happy" != "chill" by { assert "happy"[0] != "chill"[0]; }
    assert "nostalgic" != "energetic" by { assert "nostalgic"[0] != "energetic"[0]; }
  }

  /**
   * What can happen to the chat state.  A send either runs to completion, or
   * is split at its `await` into its start and the settling of generation,
   * so that other events may come in between.
   */
  datatype Event =
    | AddEvent(sender: Sender, content: Content, now: int)
    | TypeEvent(value: string)
    | ViewEvent(view: View)
    | SendEvent(text: string, g: Generation, sentAt: int, repliedAt: int)
    | BeginSendEvent(text: string, now: int)
    | FinishSendEvent(g: Generation, now: int)
    | SuggestEvent(mood: string)

  function Step(s: Snapshot, e: Event): Snapshot {
    match e
    case AddEvent(sender, content, now) => Added(s, sender, content, now)
    case TypeEvent(value) => s.(inputValue := value)
    case ViewEvent(view) => s.(currentView := view)
    case SendEvent(text, g, sentAt, repliedAt) => Send(s, text, g, sentAt, repliedAt)
    case BeginSendEvent(text, now) => BeginSend(s, text, now)
    case FinishSendEvent(g, now) => FinishSend(s, g, now)
    case SuggestEvent(mood) => Suggested(s, mood)
  }

  function Replay(s: Snapshot, events: seq<Event>): Snapshot
    decreases |events|
  {
    if events == [] then s else Replay(Step(s, events[0]), events[1..])
  }

  /** The message log only grows: whatever happens, the earlier log is a prefix of the later one. */
  lemma {:induction false} LogOnlyGrows(s: Snapshot, events: seq<Event>)
    ensures s.messages <= Replay(s, events).messages
    decreases |events|
  {
    if events != [] {
      var next := Step(s, events[0]);
      assert s.messages <= next.messages;
      LogOnlyGrows(next, events[1..]);
    }
  }
}
