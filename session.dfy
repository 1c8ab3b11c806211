/** The chat session kept between runs: the system prompt, the running
    summary of older turns and the message history, loaded from
    `session.json` at start-up and written back by `save`. Reading and
    writing the file is not modelled: the stored document is a parameter,
    `None` when the file is missing or is not JSON. */
module Session {
  import opened Wrappers
  import opened Messages
  import opened DataPaths

  /** A value of the stored JSON document. */
  datatype Field = TextField(text: string) | HistoryField(messages: seq<Message>)

  /** The three fields of a session. */
  datatype SessionData = SessionData(systemPrompt: string, history: seq<Message>, summary: string)

  const Defaults := SessionData("", [], "")

  /** The document `save` writes. */
  function SaveDocument(d: SessionData): (doc: map<string, Field>)
    ensures doc.Keys == {"system_prompt", "history", "summary"}
  {
    map["system_prompt" := TextField(d.systemPrompt), "history" := HistoryField(d.history), "summary" := TextField(d.summary)]
  }

  predicate WellFormed(doc: map<string, Field>)
  {
    "system_prompt" in doc && doc["system_prompt"].TextField?
    && "history" in doc && doc["history"].HistoryField?
    && "summary" in doc && doc["summary"].TextField?
  }

  /** What the constructor reads: the three keys of the document, or, when
      the file is missing, is not JSON or lacks a key, the defaults. */
  function LoadSession(stored: Option<map<string, Field>>): (d: SessionData)
    ensures stored.None? ==> d == Defaults
    ensures stored.Some? && !WellFormed(stored.value) ==> d == Defaults
  {
    match stored
    case Some(doc) =>
      if WellFormed(doc) then SessionData(doc["system_prompt"].text, doc["history"].messages, doc["summary"].text)
      else Defaults
    case None => Defaults
  }

  /** `save` writes the three keys the constructor reads back. */
  lemma LoadSaveRoundTrip(d: SessionData)
    ensures LoadSession(Some(SaveDocument(d))) == d
  {
    var doc := SaveDocument(d);
    assert doc["system_prompt"] == TextField(d.systemPrompt);
    assert doc["history"] == HistoryField(d.history);
    assert doc["summary"] == TextField(d.summary);
  }

  /** `_get_session_path()` */
  function SessionPath(env: map<string, string>, home: string): Path
  {
    DataFile(env, home, "session.json")
  }

  /** `ChatSession`. The source's class has no `search` attribute, which
      `/search` toggles; the model gives it one, off at start-up. */
  class ChatSession {
    var systemPrompt: string
    var history: seq<Message>
    var summary: string
    var search: bool

    function Data(): SessionData
      reads this
    {
      SessionData(systemPrompt, history, summary)
    }

    /** `ChatSession()`: loads the stored session, or starts empty. */
    constructor(stored: Option<map<string, Field>>)
      ensures Data() == LoadSession(stored)
      ensures !search
    {
      var d := LoadSession(stored);
      systemPrompt := d.systemPrompt;
      history := d.history;
      summary := d.summary;
      search := false;
    }

    /** The `system_prompt` setter changes that field only. */
    method SetSystemPrompt(value: string)
      modifies this
      ensures systemPrompt == value
      ensures history == old(history) && summary == old(summary) && search == old(search)
    {
      systemPrompt := value;
    }

    /** The `summary` setter changes that field only. */
    method SetSummary(value: string)
      modifies this
      ensures summary == value
      ensures history == old(history) && systemPrompt == old(systemPrompt) && search == old(search)
    {
      summary := value;
    }

    /** `add_to_history(message)` appends the message and nothing else. */
    method AddToHistory(message: Message)
      modifies this
      ensures history == old(history) + [message]
      ensures systemPrompt == old(systemPrompt) && summary == old(summary) && search == old(search)
    {
      history := history + [message];
    }

    /** `clear()` empties the prompt, the summary and the history. */
    method Clear()
      modifies this
      ensures Data() == Defaults
      ensures search == old(search)
    {
      systemPrompt := "";
      summary := "";
      history := [];
    }

    /** `save()`: the document written to the session path. */
    function Document(): map<string, Field>
      reads this
    {
      SaveDocument(Data())
    }
  }
}
