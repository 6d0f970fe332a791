/** A library of PlantUML prompt templates kept in the store under `plantuml:{name}:{version}`,
    read through an in-memory cache keyed `{name}:{version}`, and filled in with the user's
    description before being sent to the model.

    Clock readings and the model are parameters. JSON encoding of the stored entries is
    taken as exact: an entry reads back as the value that was written. */
module PromptLibrary {
  import opened Wrappers
  import opened Text
  import opened KeyValue

  function PromptId(name: string, version: string): string {
    "plantuml:" + name + ":" + version
  }

  function CacheKey(name: string, version: string): string {
    name + ":" + version
  }

  /** What `getPrompt` hands out: the template and its input variables, each `None` when
      the stored entry lacks it. */
  datatype PromptTemplate = PromptTemplate(template: Option<Value>, inputVariables: Option<Value>)

  function FieldOf(fields: Hash, name: string): Option<Value> {
    if name in fields then Some(fields[name]) else None
  }

  /** The template part of a stored entry; anything but a record has no fields. */
  function TemplateOf(entry: Value): (t: PromptTemplate)
    ensures entry.Record? && "template" in entry.fields ==> t.template == Some(entry.fields["template"])
    ensures !entry.Record? ==> t == PromptTemplate(None, None)
    ensures entry.Record? ==>
      && ("template" in entry.fields <==> t.template.Some?)
      && ("inputVariables" in entry.fields <==> t.inputVariables.Some?)
      && ("inputVariables" in entry.fields ==> t.inputVariables == Some(entry.fields["inputVariables"]))
  {
    var fields := if entry.Record? then entry.fields else map[];
    PromptTemplate(FieldOf(fields, "template"), FieldOf(fields, "inputVariables"))
  }

  /** The entry `createPrompt` stores: the given fields, then its id and two equal
      timestamps. */
  function StoredEntry(entry: Hash, now: string): (stored: Hash)
    ensures "id" in stored && stored["id"] == Str(PromptId(FieldText(entry, "name"), FieldText(entry, "version")))
    ensures "createdAt" in stored && "updatedAt" in stored && stored["createdAt"] == stored["updatedAt"] == Str(now)
    ensures forall f :: f in entry && f != "id" && f != "createdAt" && f != "updatedAt" ==> f in stored && stored[f] == entry[f]
  {
    entry + map["id" := Str(PromptId(FieldText(entry, "name"), FieldText(entry, "version"))),
                "createdAt" := Str(now), "updatedAt" := Str(now)]
  }

  class PlantUMLPromptLibrary {
    var cache: map<string, PromptTemplate>

    constructor ()
      ensures cache == map[]
    {
      cache := map[];
    }

    /** Stores the entry under its id and returns the id. The cache is not touched, so a
        prompt already read keeps being served from the cache after it is re-created. */
    method CreatePrompt(db: Store, entry: Hash, now: string) returns (id: string)
      modifies db
      ensures id == PromptId(FieldText(entry, "name"), FieldText(entry, "version"))
      ensures db.strings == old(db.strings)[id := Record(StoredEntry(entry, now))]
      ensures db.expiries == old(db.expiries) - {id}
      ensures db.hashes == old(db.hashes) && db.sets == old(db.sets) && db.lists == old(db.lists)
      ensures cache == old(cache)
    {
      id := PromptId(FieldText(entry, "name"), FieldText(entry, "version"));
      db.Set(id, Record(StoredEntry(entry, now)));
    }

    /** A cache hit is served without reading the store. On a miss the store is read: an
        absent entry gives `None` and caches nothing. Any stored JSON text is truthy, so a
        present entry is parsed: a JSON `null` has no fields to read and throws, and
        anything else is cut down to its template part, cached and returned. */
    method GetPrompt(db: Store, name: string, version: string) returns (r: Result<Option<PromptTemplate>>)
      modifies this
      ensures CacheKey(name, version) in old(cache) ==>
        r == Ok(Some(old(cache)[CacheKey(name, version)])) && cache == old(cache)
      ensures CacheKey(name, version) !in old(cache) && !Stored(db, name, version) ==>
        r == Ok(None) && cache == old(cache)
      ensures CacheKey(name, version) !in old(cache) && Stored(db, name, version)
              && db.strings[PromptId(name, version)].Null? ==>
        r == Err(NullEntryError) && cache == old(cache)
      ensures CacheKey(name, version) !in old(cache) && Stored(db, name, version)
              && !db.strings[PromptId(name, version)].Null? ==>
        && r == Ok(Some(TemplateOf(db.strings[PromptId(name, version)])))
        && cache == old(cache)[CacheKey(name, version) := r.value.value]
    {
      var key := CacheKey(name, version);
      if key in cache {
        return Ok(Some(cache[key]));
      }
      var id := PromptId(name, version);
      if id !in db.strings {
        return Ok(None);
      }
      if db.strings[id].Null? {
        return Err(NullEntryError);
      }
      var template := TemplateOf(db.strings[id]);
      cache := cache[key := template];
      r := Ok(Some(template));
    }

    /** Fills the first `{input}` of the template with `input` and asks the model.
        Reading the prompt may fill the cache exactly as `GetPrompt` does. */
    method GeneratePlantUML(db: Store, name: string, version: string, input: string,
                            generate: string -> string) returns (r: Result<string>)
      modifies this
      ensures CacheKey(name, version) !in old(cache) && Stored(db, name, version)
              && db.strings[PromptId(name, version)].Null? ==>
        r == Err(NullEntryError)
      ensures var found := if CacheKey(name, version) in old(cache) then Some(old(cache)[CacheKey(name, version)])
                           else if Stored(db, name, version) then Some(TemplateOf(db.strings[PromptId(name, version)]))
                           else None;
        CacheKey(name, version) in old(cache) || !Stored(db, name, version)
          || !db.strings[PromptId(name, version)].Null? ==>
        && (found.None? ==> r == Err("Prompt " + name + ":" + version + " not found"))
        && (found.Some? ==> r == Fill(found.value, input, generate))
      ensures cache == if CacheKey(name, version) !in old(cache) && Stored(db, name, version)
                          && !db.strings[PromptId(name, version)].Null?
                       then old(cache)[CacheKey(name, version) := TemplateOf(db.strings[PromptId(name, version)])]
                       else old(cache)
    {
      var prompt := GetPrompt(db, name, version);
      if prompt.Err? {
        return Err(prompt.message);
      }
      if prompt.value.None? {
        return Err("Prompt " + name + ":" + version + " not found");
      }
      r := Fill(prompt.value.value, input, generate);
    }
  }

  /** The store holds an entry for the prompt. Whatever it holds is non-empty JSON text,
      which passes `if (!promptJson)`. */
  predicate Stored(db: Store, name: string, version: string)
    reads db
  {
    PromptId(name, version) in db.strings
  }

  /** What reading `.template` off a parsed JSON `null` throws. */
  const NullEntryError := "Cannot read properties of null (reading 'template')"

  /** A stored value that is falsy in JavaScript (`0`, `false`, `""`) is still found: it has
      no template, which is cached, and filling it throws. */
  lemma FalsyEntryIsFound(v: Value, input: string, generate: string -> string)
    requires !v.Null? && !Truthy(v)
    ensures TemplateOf(v) == PromptTemplate(None, None)
    ensures Fill(TemplateOf(v), input, generate) == Err("Cannot read properties of undefined (reading 'replace')")
  {
  }

  /** The prompt text sent to the model: only the first `{input}` is replaced. A template
      that is missing, `null` or not a string has no `replace` and throws. This is the
      method as intended, with the model provider in scope. */
  function Fill(prompt: PromptTemplate, input: string, generate: string -> string): (r: Result<string>)
    ensures prompt.template.Some? && prompt.template.value.Str? ==>
      r == Ok(generate(ReplaceFirst(prompt.template.value.s, "{input}", input)))
    ensures prompt.template.None? ==> r == Err("Cannot read properties of undefined (reading 'replace')")
    ensures prompt.template == Some(Null) ==> r == Err("Cannot read properties of null (reading 'replace')")
    ensures prompt.template.Some? && !prompt.template.value.Str? && !prompt.template.value.Null? ==>
      r == Err("prompt.template.replace is not a function")
  {
    if prompt.template.Some? && prompt.template.value.Str? then
      Ok(generate(ReplaceFirst(prompt.template.value.s, "{input}", input)))
    else ReplaceError(prompt.template)
  }

  /** The error `template.replace(...)` throws on a template that is not a string. */
  function ReplaceError(t: Option<Value>): Result<string> {
    match t
    case None => Err("Cannot read properties of undefined (reading 'replace')")
    case Some(Null) => Err("Cannot read properties of null (reading 'replace')")
    case Some(_) => Err("prompt.template.replace is not a function")
  }

  /** A found prompt reaches the model exactly when its template is a string. */
  lemma FillAnswersIff(prompt: PromptTemplate, input: string, generate: string -> string)
    ensures Fill(prompt, input, generate).Ok? <==> prompt.template.Some? && prompt.template.value.Str?
  {
  }

  /** `generatePlantUML` as written after the prompt is found: a string template is filled
      (which cannot fail), and then `openai("gpt-4-turbo")` names a binding the module never
      imports, so it ends in a ReferenceError before the model is called. */
  function FillAsWritten(prompt: PromptTemplate, input: string): (r: Result<string>)
    ensures prompt.template.Some? && prompt.template.value.Str? ==> r == Err("openai is not defined")
    ensures !(prompt.template.Some? && prompt.template.value.Str?) ==> r == Fill(prompt, input, _ => "")
  {
    if prompt.template.Some? && prompt.template.value.Str? then Err("openai is not defined")
    else ReplaceError(prompt.template)
  }

  /** As written, no prompt ever produces a diagram: every found prompt ends in an error,
      where the intended `Fill` answers every string template. */
  lemma AsWrittenNeverAnswers(prompt: PromptTemplate, input: string, generate: string -> string)
    ensures FillAsWritten(prompt, input).Err?
    ensures prompt.template.Some? && prompt.template.value.Str? ==>
      FillAsWritten(prompt, input) != Fill(prompt, input, generate)
  {
  }
}
