/** The chat session: the message list kept across reruns of the page, the
    memory file it is restored from and rewritten to, and the three ways a
    rerun can touch it (a typed message, a spoken one, a file analysis). */
module Session {
  import opened Text
  import opened Prompt
  import opened Search

  datatype Option<T> = None | Some(value: T)

  /** What the generation endpoint gave back for a request: a JSON body with
      a `response` field, a body without one, or an exception. */
  datatype Reply = Answer(text: string) | MissingField | Failed(error: string)

  /** What the speech recogniser made of the microphone input. */
  datatype Heard = Speech(text: string) | Unintelligible | ServiceDown

  /** The collaborator a typed message was forwarded to, and with what. */
  datatype Call = WebSearch(query: string) | ModelQuery(prompt: string)

  /** Something the user does on one rerun of the page. */
  datatype Event = Typed(input: string) | Spoken(heard: Heard)

  const NoResponse: string := "No response from model."
  const ErrorPrefix: string := "\U{26A0}\U{FE0F} Error connecting to model: "

  /** The assistant turn recorded for a reply to a chat prompt: the
      `response` field, the fixed fallback when the field is absent, or the
      error text behind the warning marker. */
  function ReplyText(reply: Reply): (r: string)
    ensures reply.Answer? ==> r == reply.text
    ensures reply.MissingField? ==> r == NoResponse
    ensures reply.Failed? ==> |r| >= |ErrorPrefix|
                              && r[..|ErrorPrefix|] == ErrorPrefix && r[|ErrorPrefix|..] == reply.error
  {
    match reply
    case Answer(text) => text
    case MissingField => NoResponse
    case Failed(error) => ErrorPrefix + error
  }

  /** `listen()`: recognised speech, or one of two fixed apologies that the
      caller cannot tell apart from speech. */
  function Transcript(heard: Heard): (r: string)
    ensures heard.Speech? ==> r == heard.text
    ensures !heard.Speech? ==> r != []
  {
    match heard
    case Speech(text) => text
    case Unintelligible => "Sorry, I couldn't understand that."
    case ServiceDown => "Speech service unavailable."
  }

  /** Where a typed message goes once its user turn is in `history`'s
      place: a search command goes to the web search with the extracted
      query, anything else to the model with the assembled prompt, whose last
      line is the message itself. */
  function Dispatch(directive: string, history: seq<Turn>, input: string): (c: Call)
    ensures c.WebSearch? <==> IsSearchCommand(input)
    ensures c.WebSearch? ==> c.query == ExtractQuery(input)
    ensures c.ModelQuery? ==>
              c.prompt == directive + "\n" + Lines(history) + "user: " + input + "\n" + "assistant:"
  {
    if IsSearchCommand(input) then WebSearch(ExtractQuery(input))
    else
      PromptEndsWithUserTurn(directive, history, input);
      ModelQuery(Assemble(directive, history + [Turn(User, input)]))
  }

  /** The text of the assistant turn that answers a call. */
  function Answered(call: Call, search: string -> string, gateway: string -> Reply): string {
    match call
    case WebSearch(query) => search(query)
    case ModelQuery(prompt) => ReplyText(gateway(prompt))
  }

  /** The message list after one typed message: nothing for an empty one;
      otherwise exactly two turns appended, the user's message and then the
      answer, with every earlier turn left in place. */
  function Exchange(mode: string, history: seq<Turn>, input: string,
                    search: string -> string, gateway: string -> Reply): (h: seq<Turn>)
    ensures input == [] ==> h == history
    ensures input != [] ==>
              && |h| == |history| + 2
              && h[..|history|] == history
              && h[|history|] == Turn(User, input)
              && h[|history| + 1].role == Assistant
  {
    if input == [] then history
    else
      var call := Dispatch(SystemPrompt(mode), history, input);
      history + [Turn(User, input), Turn(Assistant, Answered(call, search, gateway))]
  }

  /** The message list after a voice capture: the transcript as one user
      turn when it is not empty, and never an assistant turn. */
  function Voice(history: seq<Turn>, transcript: string): (h: seq<Turn>)
    ensures transcript == [] ==> h == history
    ensures transcript != [] ==> h == history + [Turn(User, transcript)]
  {
    if transcript == [] then history else history + [Turn(User, transcript)]
  }

  /** The message list after a series of reruns. It only grows: earlier
      turns keep their place and the list gains exactly the turns the events
      add. */
  function Run(mode: string, history: seq<Turn>, events: seq<Event>,
               search: string -> string, gateway: string -> Reply): (h: seq<Turn>)
    ensures |h| == |history| + TotalAdded(events) && h[..|history|] == history
    decreases |events|
  {
    if events == [] then history
    else
      var next := match events[0]
        case Typed(input) => Exchange(mode, history, input, search, gateway)
        case Spoken(heard) => Voice(history, Transcript(heard));
      var h := Run(mode, next, events[1..], search, gateway);
      assert h[..|history|] == h[..|next|][..|history|];
      h
  }

  /** How many turns an event adds: two for a typed message, one for a
      voice capture, none for an empty one. */
  function Added(e: Event): nat {
    match e
    case Typed(input) => if input == [] then 0 else 2
    case Spoken(heard) => if Transcript(heard) == [] then 0 else 1
  }

  function TotalAdded(events: seq<Event>): nat {
    if events == [] then 0 else Added(events[0]) + TotalAdded(events[1..])
  }

  /** Typed messages alone: after `n` non-empty messages, searches and model
      queries alike, the list holds exactly `2 * n` more turns. */
  lemma TypedOnly(mode: string, history: seq<Turn>, inputs: seq<string>,
                  search: string -> string, gateway: string -> Reply)
    requires forall i :: 0 <= i < |inputs| ==> inputs[i] != []
    ensures |Run(mode, history, seq(|inputs|, i requires 0 <= i < |inputs| => Typed(inputs[i])),
                 search, gateway)| == |history| + 2 * |inputs|
  {
    var events := seq(|inputs|, i requires 0 <= i < |inputs| => Typed(inputs[i]));
    AllTyped(inputs, events);
  }

  lemma {:induction false} AllTyped(inputs: seq<string>, events: seq<Event>)
    requires forall i :: 0 <= i < |inputs| ==> inputs[i] != []
    requires |events| == |inputs|
    requires forall i :: 0 <= i < |inputs| ==> events[i] == Typed(inputs[i])
    ensures TotalAdded(events) == 2 * |inputs|
    decreases |inputs|
  {
    if inputs != [] {
      AllTyped(inputs[1..], events[1..]);
    }
  }

  /** A failing model call is contained: the exchange still completes with an
      assistant turn that carries the error text behind the warning marker. */
  lemma FailureContained(mode: string, history: seq<Turn>, input: string,
                         search: string -> string, gateway: string -> Reply)
    requires input != [] && !IsSearchCommand(input)
    requires gateway(Assemble(SystemPrompt(mode), history + [Turn(User, input)])).Failed?
    ensures var h := Exchange(mode, history, input, search, gateway);
      var e := gateway(Assemble(SystemPrompt(mode), history + [Turn(User, input)])).error;
      |h| == |history| + 2 && h[|history| + 1] == Turn(Assistant, ErrorPrefix + e)
  {
  }

  /** A model query's assistant turn is the `response` field when the reply
      has one, the fixed fallback when it does not, and the warning-prefixed
      error text when the call failed. */
  lemma ModelReplyRecorded(mode: string, history: seq<Turn>, input: string,
                           search: string -> string, gateway: string -> Reply)
    requires input != [] && !IsSearchCommand(input)
    ensures var reply := gateway(Assemble(SystemPrompt(mode), history + [Turn(User, input)]));
      var h := Exchange(mode, history, input, search, gateway);
      && (reply.Answer? ==> h[|history| + 1] == Turn(Assistant, reply.text))
      && (reply.MissingField? ==> h[|history| + 1] == Turn(Assistant, "No response from model."))
      && (reply.Failed? ==> h[|history| + 1] == Turn(Assistant, ErrorPrefix + reply.error))
  {
  }

  /** A search command's answer is whatever the search returned for the
      extracted query; the model is not consulted at all. */
  lemma SearchAnswered(mode: string, history: seq<Turn>, input: string,
                       search: string -> string, gateway: string -> Reply, other: string -> Reply)
    requires input != [] && IsSearchCommand(input)
    ensures Exchange(mode, history, input, search, gateway)
            == history + [Turn(User, input), Turn(Assistant, search(ExtractQuery(input)))]
    ensures Exchange(mode, history, input, search, gateway)
            == Exchange(mode, history, input, search, other)
  {
  }

  /** The failure apologies of the recogniser are not empty, so each is
      recorded as if the user had said it. */
  lemma ApologyRecordedAsSpeech(history: seq<Turn>, heard: Heard)
    requires !heard.Speech?
    ensures |Voice(history, Transcript(heard))| == |history| + 1
    ensures Voice(history, Transcript(heard))[|history|] == Turn(User, Transcript(heard))
  {
  }

  /** The one-shot request sent when a file is analysed: the whole file
      between the fixed instruction and a final line break. */
  function AnalysisPrompt(content: string): (p: string)
    ensures |p| == 46 + |content| + 1
    ensures p[46..46 + |content|] == content && p[|p| - 1] == '\n'
  {
    "\nAnalyze this code and suggest improvements:\n\n" + content + "\n"
  }

  /** What the analysis shows: the reply, the fallback, or the error after
      a plain `Error: `, never the warning-marked text of a chat reply. */
  function AnalysisText(reply: Reply): (r: string)
    ensures reply.Answer? ==> r == reply.text
    ensures reply.MissingField? ==> r == NoResponse
    ensures reply.Failed? ==> r == "Error: " + reply.error && r != ReplyText(reply)
  {
    match reply
    case Answer(text) => text
    case MissingField => NoResponse
    case Failed(error) =>
      assert ("Error: " + error)[0] != (ErrorPrefix + error)[0];
      "Error: " + error
  }

  /** `memory.json`: absent, or holding a saved message list. */
  class MemoryFile {
    var stored: Option<seq<Turn>>

    constructor (stored: Option<seq<Turn>>)
      ensures this.stored == stored
    {
      this.stored := stored;
    }

    /** Loading falls back to an empty list when there is no file. */
    method Load() returns (turns: seq<Turn>)
      ensures stored.None? ==> turns == []
      ensures stored.Some? ==> turns == stored.value
    {
      match stored
      case None => turns := [];
      case Some(saved) => turns := saved;
    }

    /** Saving rewrites the whole file with the given list. */
    method Save(turns: seq<Turn>)
      modifies this
      ensures stored == Some(turns)
    {
      stored := Some(turns);
    }
  }

  /** Whatever list is saved is the list the next start-up restores. */
  method SaveThenLoad(memory: MemoryFile, turns: seq<Turn>) returns (restored: seq<Turn>)
    modifies memory
    ensures restored == turns
  {
    memory.Save(turns);
    restored := memory.Load();
  }

  /** The messages of one browser session together with the memory file. */
  class ChatSession {
    var messages: seq<Turn>
    const memory: MemoryFile

    /** The first run restores the list from the file, or starts empty. */
    constructor (memory: MemoryFile)
      ensures this.memory == memory
      ensures messages == match memory.stored case None => [] case Some(saved) => saved
    {
      var loaded := memory.Load();
      this.memory := memory;
      messages := loaded;
    }

    /** A typed message: the user turn, then the search results or the
        model's answer, then the whole list saved; an empty message does
        nothing. The call returned describes the request of the branch taken. */
    method Submit(mode: string, input: string,
                  search: string -> string, gateway: string -> Reply)
      returns (call: Option<Call>)
      modifies this, memory
      ensures messages == Exchange(mode, old(messages), input, search, gateway)
      ensures call == if input == [] then None
                      else Some(Dispatch(SystemPrompt(mode), old(messages), input))
      ensures memory.stored == if input == [] then old(memory.stored) else Some(messages)
    {
      if input == [] {
        return None;
      }
      var directive := SystemPrompt(mode);
      messages := messages + [Turn(User, input)];
      var answer: string;
      if IsSearchCommand(input) {
        var query := ExtractQuery(input);
        call := Some(WebSearch(query));
        answer := search(query);
      } else {
        var prompt := BuildPrompt(directive, messages);
        call := Some(ModelQuery(prompt));
        answer := ReplyText(gateway(prompt));
      }
      messages := messages + [Turn(Assistant, answer)];
      memory.Save(messages);
    }

    /** A voice capture: the transcript becomes a user turn when it is not
        empty; no answer is produced and the file is not rewritten. */
    method VoiceMode(heard: Heard)
      modifies this
      ensures messages == Voice(old(messages), Transcript(heard))
    {
      var transcript := Transcript(heard);
      if transcript != [] {
        messages := messages + [Turn(User, transcript)];
      }
    }

    /** A file analysis: one request outside the conversation; its result is
        shown but neither the list nor the file changes. */
    method AnalyzeFile(content: string, gateway: string -> Reply) returns (shown: string)
      ensures shown == AnalysisText(gateway(AnalysisPrompt(content)))
    {
      var reply := gateway(AnalysisPrompt(content));
      shown := AnalysisText(reply);
    }
  }
}
