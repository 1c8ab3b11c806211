/** The prompt history record: an optional system prompt and a list of
    role/content messages, validated by its schema when it is loaded from
    `history.json`. The stored document is a parameter, `None` when the
    file is missing or is not JSON. */
module History {
  import opened Wrappers
  import opened DataPaths

  /** The three roles the schema admits. */
  datatype Role = User | Assistant | System

  datatype Message = Message(role: Role, content: string)

  /** `History(system_prompt, messages)` */
  datatype History = History(systemPrompt: Option<string>, messages: seq<Message>)

  /** A value of the stored document; `Invalid` is anything the schema
      rejects for the key it sits under. */
  datatype Field = PromptField(prompt: Option<string>) | MessagesField(messages: seq<Message>) | Invalid

  const Fallback := History(None, [])

  /** `model_dump()` of the record, as `save` writes it. */
  function Dump(h: History): (doc: map<string, Field>)
    ensures doc.Keys == {"system_prompt", "messages"}
  {
    map["system_prompt" := PromptField(h.systemPrompt), "messages" := MessagesField(h.messages)]
  }

  /** `_load()`: the record the document validates to, or the fallback when
      the file is missing, is not JSON, lacks a key or fails validation. */
  function Load(stored: Option<map<string, Field>>): (h: History)
    ensures stored.None? ==> h == Fallback
    ensures stored.Some? && ("system_prompt" !in stored.value || "messages" !in stored.value) ==> h == Fallback
  {
    match stored
    case None => Fallback
    case Some(doc) =>
      if "system_prompt" in doc && "messages" in doc && doc["system_prompt"].PromptField? && doc["messages"].MessagesField?
      then History(doc["system_prompt"].prompt, doc["messages"].messages)
      else Fallback
  }

  /** What `save` writes, `_load` reads back. */
  lemma LoadDumpRoundTrip(h: History)
    ensures Load(Some(Dump(h))) == h
  {
    var doc := Dump(h);
    assert doc["system_prompt"] == PromptField(h.systemPrompt);
    assert doc["messages"] == MessagesField(h.messages);
  }

  /** A document with a field that fails validation, under either key,
      loads as the fallback. */
  lemma InvalidFieldFallsBack(doc: map<string, Field>)
    requires ("system_prompt" in doc && !doc["system_prompt"].PromptField?)
          || ("messages" in doc && !doc["messages"].MessagesField?)
    ensures Load(Some(doc)) == Fallback
  {
  }

  /** `_get_history_path()` */
  function HistoryPath(env: map<string, string>, home: string): Path
  {
    DataFile(env, home, "history.json")
  }

  /** `HistoryManager`: holds the loaded record. */
  class HistoryManager {
    var history: History

    constructor(stored: Option<map<string, Field>>)
      ensures history == Load(stored)
    {
      history := Load(stored);
    }

    /** `add(message)` appends exactly one message. */
    method Add(message: Message)
      modifies this
      ensures history == History(old(history).systemPrompt, old(history).messages + [message])
    {
      history := history.(messages := history.messages + [message]);
    }

    /** `update_system_prompt(prompt)` changes the prompt only. */
    method UpdateSystemPrompt(systemPrompt: string)
      modifies this
      ensures history == History(Some(systemPrompt), old(history).messages)
    {
      history := history.(systemPrompt := Some(systemPrompt));
    }

    /** `clear()` empties the messages and keeps the prompt. */
    method Clear()
      modifies this
      ensures history == History(old(history).systemPrompt, [])
    {
      history := History(history.systemPrompt, []);
    }

    /** `save()`: the document written to the history path. */
    function Document(): map<string, Field>
      reads this
    {
      Dump(history)
    }
  }
}
