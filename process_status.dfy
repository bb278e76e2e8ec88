/** The stateful part of ActivityPub::ProcessStatusService: applying an edit
    of a remote `Note` or `Question` to the cached status, under the lock
    keyed by the object's id. The lock itself is reduced to whether it was
    acquired, and the clock to a `now` value supplied by the caller. */
module ProcessStatus {
  import opened RubyValues
  import opened ContentResolver

  datatype Option<T> = None | Some(value: T)

  /** The account that owns a status; only `sensitized?` is read here. */
  datatype Account = Account(sensitized: bool)

  /** The five attributes an edit assigns, as the Ruby values assigned. */
  datatype Attributes = Attributes(
    text: Value,
    spoilerText: Value,
    sensitive: Value,
    language: Value,
    editedAt: Value)

  /** How a call ends: returned early for another object type, updated under
      the lock, or `Mastodon::RaceConditionError` raised for a lock held
      elsewhere. */
  datatype Outcome = Skipped | Updated | RaceCondition

  /** `@account.sensitized? || @json['sensitive'] || false`. */
  function SensitiveValue(sensitized: bool, documentSensitive: Value): (r: Value)
    ensures sensitized ==> r == Bool(true)
    ensures !sensitized && Truthy(documentSensitive) ==> r == documentSensitive
    ensures !sensitized && !Truthy(documentSensitive) ==> r == Bool(false)
    ensures Truthy(r) <==> sensitized || Truthy(documentSensitive)
  {
    Or(Or(Bool(sensitized), documentSensitive), Bool(false))
  }

  /** `@json['updated'] || Time.now.utc`, with the clock reading `now`
      (seconds since the epoch) passed in. */
  function EditedAtValue(updated: Value, now: int): (r: Value)
    ensures Truthy(updated) ==> r == updated
    ensures !Truthy(updated) ==> r == Time(now)
    ensures Truthy(r)
  {
    Or(updated, Time(now))
  }

  /** The attributes `update_immediate_attributes!` assigns. The language is
      `language_from_content`: `detected_language`, which line 35 of
      app/services/activitypub/process_status_service.rb calls, is defined
      neither in that file nor in this model. */
  function NewAttributes(doc: Document, sensitized: bool, now: int): (a: Attributes)
    ensures a.text == TextFromContent(doc) && a.spoilerText == TextFromSummary(doc)
    ensures a.sensitive == SensitiveValue(sensitized, doc.sensitive)
    ensures a.language == Str(LanguageFromContent(doc))
    ensures a.editedAt == EditedAtValue(doc.updated, now)
    ensures Truthy(a.sensitive) <==> sensitized || Truthy(doc.sensitive)
    ensures a.language.Str?
    ensures a.language.s == "und" || IsLanguageMap(doc.contentMap) || IsLanguageMap(doc.summaryMap)
    ensures Truthy(a.editedAt)
  {
    Attributes(
      TextFromContent(doc),
      TextFromSummary(doc),
      SensitiveValue(sensitized, doc.sensitive),
      Str(LanguageFromContent(doc)),
      EditedAtValue(doc.updated, now))
  }

  /** How `call` ends, given whether the lock was acquired. */
  function CallOutcome(doc: Document, acquired: bool): (o: Outcome)
    ensures o == Skipped <==> !ExpectedType(doc.objectType)
    ensures o == Updated <==> ExpectedType(doc.objectType) && acquired
    ensures o == RaceCondition <==> ExpectedType(doc.objectType) && !acquired
  {
    if !ExpectedType(doc.objectType) then Skipped
    else if acquired then Updated
    else RaceCondition
  }

  /** The lock `call` asks for: none for an unexpected type. */
  function RequestedLock(doc: Document): (k: Option<string>)
    ensures k == None <==> !ExpectedType(doc.objectType)
    ensures k.Some? ==> k.value == LockKey(doc.id)
  {
    if ExpectedType(doc.objectType) then Some(LockKey(doc.id)) else None
  }

  /** The status attributes after `call`: the new attributes on the updated
      path, the old ones otherwise. */
  function AfterCall(before: Attributes, doc: Document, sensitized: bool, acquired: bool, now: int): (r: Attributes)
    ensures CallOutcome(doc, acquired) != Updated ==> r == before
    ensures ExpectedType(doc.objectType) && acquired ==> r == NewAttributes(doc, sensitized, now)
  {
    if CallOutcome(doc, acquired) == Updated then NewAttributes(doc, sensitized, now) else before
  }

  /** The cached copy of a remote status. The five attributes are what the
      record holds in memory; `stored` is the row as last saved. */
  class Status {
    const account: Account
    var text: Value
    var spoilerText: Value
    var sensitive: Value
    var language: Value
    var editedAt: Value
    var stored: Attributes

    function Attrs(): Attributes
      reads this
    {
      Attributes(text, spoilerText, sensitive, language, editedAt)
    }

    constructor (account: Account, row: Attributes)
      ensures this.account == account
      ensures Attrs() == row && stored == row
    {
      this.account := account;
      text, spoilerText, sensitive, language, editedAt :=
        row.text, row.spoilerText, row.sensitive, row.language, row.editedAt;
      stored := row;
    }

    /** `save`: the assigned attributes become the stored row. */
    method Save()
      modifies this`stored
      ensures stored == Attrs()
    {
      stored := Attrs();
    }

    /** `update_immediate_attributes!`: assigns exactly the five attributes
        and saves; nothing else about the status changes. */
    method UpdateImmediateAttributes(doc: Document, sensitized: bool, now: int)
      modifies this`text, this`spoilerText, this`sensitive, this`language, this`editedAt, this`stored
      ensures Attrs() == NewAttributes(doc, sensitized, now)
      ensures stored == Attrs()
    {
      text := TextFromContent(doc);
      spoilerText := TextFromSummary(doc);
      sensitive := SensitiveValue(sensitized, doc.sensitive);
      language := Str(LanguageFromContent(doc));
      editedAt := EditedAtValue(doc.updated, now);
      Save();
    }
  }

  /** `call(status, json)`: returns at once unless the object is a `Note` or
      `Question`; otherwise asks for the lock "create:<id>" and, when it is
      acquired, updates the status; when it is not, ends in a race condition
      with the status untouched. `acquired` is the lock's answer. */
  method Call(status: Status, doc: Document, acquired: bool, now: int) returns (outcome: Outcome, lock: Option<string>)
    modifies status`text, status`spoilerText, status`sensitive, status`language, status`editedAt, status`stored
    ensures outcome == CallOutcome(doc, acquired)
    ensures lock == RequestedLock(doc)
    ensures status.Attrs() == AfterCall(old(status.Attrs()), doc, status.account.sensitized, acquired, now)
    ensures outcome == Updated ==> status.stored == status.Attrs()
    ensures outcome != Updated ==> status.stored == old(status.stored)
  {
    if !ExpectedType(doc.objectType) {
      return Skipped, None;
    }
    lock := Some(LockKey(doc.id));
    if acquired {
      status.UpdateImmediateAttributes(doc, status.account.sensitized, now);
      outcome := Updated;
    } else {
      outcome := RaceCondition;
    }
  }

  /** An object of another type leaves the status as it was, with no lock. */
  lemma SkipChangesNothing(before: Attributes, doc: Document, sensitized: bool, acquired: bool, now: int)
    requires !ExpectedType(doc.objectType)
    ensures CallOutcome(doc, acquired) == Skipped && RequestedLock(doc) == None
    ensures AfterCall(before, doc, sensitized, acquired, now) == before
  {
  }

  /** A lock not acquired leaves the status as it was. */
  lemma RaceChangesNothing(before: Attributes, doc: Document, sensitized: bool, now: int)
    requires ExpectedType(doc.objectType)
    ensures CallOutcome(doc, false) == RaceCondition
    ensures AfterCall(before, doc, sensitized, false, now) == before
  {
  }

  /** On the updated path the result does not depend on the old attributes,
      so applying the same object twice with the same clock reading ends
      where applying it once does. */
  lemma UpdateOverwritesAll(b1: Attributes, b2: Attributes, doc: Document, sensitized: bool, now: int)
    requires ExpectedType(doc.objectType)
    ensures AfterCall(b1, doc, sensitized, true, now) == AfterCall(b2, doc, sensitized, true, now)
    ensures AfterCall(AfterCall(b1, doc, sensitized, true, now), doc, sensitized, true, now)
         == AfterCall(b1, doc, sensitized, true, now)
  {
  }

  /** A `Note` with plain content, `sensitive: true` and an `updated` time,
      and no maps: text and flags are taken over, the language becomes "und". */
  lemma PlainNoteScenario(before: Attributes, now: int)
    ensures var doc := Document(Str("Note"), "https://example.com/1", Str("new text"), Nil,
                                Nil, Nil, Bool(true), Str("2024-01-01T00:00:00Z"));
            AfterCall(before, doc, false, true, now)
              == Attributes(Str("new text"), Nil, Bool(true), Str("und"), Str("2024-01-01T00:00:00Z"))
  {
  }

  /** Plain content "A" beside contentMap {"fr" => "B"}: the text is "A" and
      the language is "fr". */
  lemma PlainContentWithMapScenario(before: Attributes, now: int)
    ensures var doc := Document(List([Str("Question")]), "https://example.com/2", Str("A"),
                                Hash([("fr", Str("B"))]), Nil, Nil, Nil, Nil);
            var after := AfterCall(before, doc, true, true, now);
            after.text == Str("A") && after.language == Str("fr")
            && after.sensitive == Bool(true) && after.editedAt == Time(now)
  {
  }
}
