/**
 * The web client's assistant-chat store (frontend/src/store/llmStore.ts):
 * the conversation, the suggestion on display and the loading and error
 * flags. Each action is a function from the state before to the state
 * after; the clock `Date.now()` is the parameter `now`, in milliseconds.
 */
module LlmStore {
  import opened Wrappers
  import Seqs

  datatype Role = User | Assistant

  datatype ChatMessage = ChatMessage(id: string, role: Role, content: string, timestamp: nat)

  datatype Suggestion = Suggestion(suggestionType: string, title: string, description: string)

  datatype LlmState = LlmState(
    messages: seq<ChatMessage>, currentSuggestion: Option<Suggestion>, isLoading: bool,
    error: Option<string>)

  function Initial(): LlmState
  {
    LlmState([], None, false, None)
  }

  // ---------------------------------------------------------------- actions

  /** `addMessage`: appends a message stamped now, whose id is the time's decimal text (`Date.now().toString()`). */
  function AddMessage(s: LlmState, role: Role, content: string, now: nat): LlmState
  {
    s.(messages := s.messages + [ChatMessage(Seqs.NatToString(now), role, content, now)])
  }

  /** `setSuggestions`: shows the first suggestion; an empty list leaves the state alone. */
  function SetSuggestions(s: LlmState, suggestions: seq<Suggestion>): LlmState
  {
    if |suggestions| > 0 then s.(currentSuggestion := Some(suggestions[0])) else s
  }

  /** `clearTimeout` */
  function ClearTimeout(s: LlmState): LlmState
  {
    s.(currentSuggestion := None)
  }

  function SetLoading(s: LlmState, loading: bool): LlmState
  {
    s.(isLoading := loading)
  }

  function SetError(s: LlmState, error: Option<string>): LlmState
  {
    s.(error := error)
  }

  /** `clearChat`: forgets the conversation, the suggestion and the error. */
  function ClearChat(s: LlmState): LlmState
  {
    s.(messages := [], currentSuggestion := None, error := None)
  }

  /**
   * Adding a message appends exactly one message with the given role and
   * content, stamped now, and keeps every earlier message and every other
   * field; messages added at different times have different ids.
   */
  lemma AddMessageAppends(s: LlmState, role: Role, content: string, now: nat)
    ensures var r := AddMessage(s, role, content, now);
            && |r.messages| == |s.messages| + 1
            && r.messages[..|s.messages|] == s.messages
            && r.(messages := s.messages) == s
            && (var m := r.messages[|s.messages|];
                m.role == role && m.content == content && m.timestamp == now && Seqs.AllDigits(m.id) && Seqs.DigitsValue(m.id) == now)
  {
    Seqs.NatToStringValue(now);
  }

  /** Two messages added at different times never share an id. */
  lemma MessageIdsDiffer(s: LlmState, t: LlmState, role: Role, role': Role, content: string, content': string,
                         now: nat, now': nat)
    requires now != now'
    ensures AddMessage(s, role, content, now).messages[|s.messages|].id
            != AddMessage(t, role', content', now').messages[|t.messages|].id
  {
    Seqs.NatToStringValue(now);
    Seqs.NatToStringValue(now');
  }

  /** A non-empty list shows its first suggestion; an empty one changes nothing; nothing else changes. */
  lemma SetSuggestionsSound(s: LlmState, suggestions: seq<Suggestion>)
    ensures suggestions == [] ==> SetSuggestions(s, suggestions) == s
    ensures suggestions != [] ==> SetSuggestions(s, suggestions).currentSuggestion == Some(suggestions[0])
    ensures SetSuggestions(s, suggestions).(currentSuggestion := s.currentSuggestion) == s
  {
  }

  /**
   * `clearTimeout` only hides the suggestion; `clearChat` keeps the loading
   * flag, clears everything else it names and is idempotent.
   */
  lemma ClearsSound(s: LlmState)
    ensures ClearTimeout(s).currentSuggestion.None? && ClearTimeout(s).(currentSuggestion := s.currentSuggestion) == s
    ensures ClearChat(s) == Initial().(isLoading := s.isLoading)
    ensures ClearChat(ClearChat(s)) == ClearChat(s)
  {
  }
}
