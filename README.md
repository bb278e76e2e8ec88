# Editing a cached remote status from an ActivityPub object

This project models Mastodon's `ActivityPub::ProcessStatusService`. The service
applies an edit to the locally cached copy of a remote status. The edit comes
from an incoming ActivityPub `Note` or `Question` object. The model has three
parts.

- `ruby_values.dfy` (module `RubyValues`): the Ruby values a parsed JSON-LD
  object holds. It defines Ruby truthiness, Ruby's `||`, and ActiveSupport's
  `blank?`/`present?`. A string is blank when it holds only `[[:space:]]`
  characters. A hash is an ordered sequence of (key, value) entries, because
  Ruby hashes keep insertion order.
- `content_resolver.dfy` (module `ContentResolver`): the pure rules.
  - `expected_type?` decides which objects are edited.
  - The lock key is `"create:" + id`.
  - `text_from_content` and `text_from_summary` take the plain field when it is
    present, else the first value of a non-empty natural-language map
    (`contentMap`/`summaryMap`, see "Natural Language Values" in W3C Activity
    Streams 2.0 Core), else nil.
  - `language_from_content` takes the first key of `contentMap`, else the first
    key of `summaryMap`, else `"und"`.
- `process_status.dfy` (module `ProcessStatus`): the stateful part.
  - A `Status` class holds the five attributes an edit assigns, plus the row as
    last saved.
  - `UpdateImmediateAttributes` assigns the five attributes and saves.
  - `Call` returns `Skipped` for other object types. Otherwise it requests the
    lock and returns `Updated` or `RaceCondition`, depending on whether the lock
    was acquired.
  - `AfterCall` and `CallOutcome` describe the same behaviour as values, and the
    lemmas are stated over them.

The language does not depend on whether plain `content` supplied the text.
With `content` "A" and `contentMap` {"fr" => "B"}, the text is "A" and the
language is "fr" (process_status_service.rb:48-50 and 72-74;
`PlainContentKeepsMapLanguage`, `PlainContentWithMapScenario`).

Line 35 of process_status_service.rb assigns `detected_language`, which that
file does not define. The model assumes it is `language_from_content` (lines
72-80), the only language rule in that file (`NewAttributes`).

## Model

| member | source | states |
|---|---|---|
| `RubyValues.Or` | app/services/activitypub/process_status_service.rb:34-36 | Ruby `a \|\| b`: the result is `a` when `a` is truthy and `b` otherwise, so it is truthy exactly when either operand is |
| `RubyValues.AllSpace` | app/services/activitypub/process_status_service.rb:49 | a string is blank exactly when every character is `[[:space:]]` |
| `RubyValues.Present` | app/services/activitypub/process_status_service.rb:49 | `present?`: a string is present exactly when it has a non-whitespace character; an array or hash exactly when it is non-empty; any other value (nil, booleans, numbers, times) exactly when it is truthy |
| `ContentResolver.IsLanguageMap` | app/services/activitypub/process_status_service.rb:56-58 | `content_language_map?`/`summary_language_map?`: only a hash qualifies, and a hash qualifies exactly when it is present (non-empty) |
| `ContentResolver.TextFrom` | app/services/activitypub/process_status_service.rb:48-69 | the shared text rule: the plain field when present, else the first map value, else nil; the result is always the plain field, nil, or a value of the map |
| `ContentResolver.TextFromContent` | app/services/activitypub/process_status_service.rb:48-58 | present `content` gives the text whatever `contentMap` holds; else the first value of a non-empty `contentMap`; else nil |
| `ContentResolver.TextFromSummary` | app/services/activitypub/process_status_service.rb:60-70 | the same precedence for `summary`/`summaryMap`, nil when neither supplies a value |
| `ContentResolver.LanguageFromContent` | app/services/activitypub/process_status_service.rb:72-80 | first key of a non-empty `contentMap`, else first key of a non-empty `summaryMap`, else "und" |
| `ContentResolver.LanguageIgnoresPlainFields` | app/services/activitypub/process_status_service.rb:72-80 | the language is the same whatever the plain `content` and `summary` are |
| `ContentResolver.PlainContentKeepsMapLanguage` | app/services/activitypub/process_status_service.rb:48-58 | with present `content` and a non-empty `contentMap`, the text is `content` for every map, and the language is still the map's first key |
| `ContentResolver.MapTextAndLanguageAgree` | app/services/activitypub/process_status_service.rb:51-52 | when `contentMap` supplies the text, language and text are the key and value of its first entry |
| `ContentResolver.BlankContentFallsBackToMap` | app/services/activitypub/process_status_service.rb:49-52 | whitespace-only `content` is not present, so the first map entry gives text "hello" and language "en" |
| `ContentResolver.ExpectedType` | app/services/activitypub/process_status_service.rb:40-42 | the object is edited exactly when its type is "Note" or "Question", or an array containing one of them |
| `ContentResolver.LockKey` | app/services/activitypub/process_status_service.rb:44-46 | the key is "create:" followed by exactly the object's id |
| `ContentResolver.LockKeyInjective` | app/services/activitypub/process_status_service.rb:44-46 | two edits share a lock key exactly when their objects have the same id |
| `ProcessStatus.SensitiveValue` | app/services/activitypub/process_status_service.rb:34 | true when the account is sensitized; otherwise the object's `sensitive` if truthy; otherwise false. The result is truthy exactly when either source is |
| `ProcessStatus.EditedAtValue` | app/services/activitypub/process_status_service.rb:36 | the object's `updated` when truthy, else the current time as a `Time`; either way the result is set (truthy) |
| `ProcessStatus.NewAttributes` | app/services/activitypub/process_status_service.rb:32-36 | the five assigned values, each exactly: text and spoiler text as resolved, sensitivity as `SensitiveValue` (truthy exactly when the account is sensitized or the object says so), language as the string `LanguageFromContent` picks ("und" unless a language map is non-empty), and edit time as `EditedAtValue` (always set) |
| `ProcessStatus.CallOutcome` | app/services/activitypub/process_status_service.rb:12-26 | skipped exactly for other types; updated exactly when the type matches and the lock is acquired; race condition exactly when it matches and the lock is not acquired |
| `ProcessStatus.RequestedLock` | app/services/activitypub/process_status_service.rb:12-14 | no lock is requested for other types; otherwise the lock "create:" + id is requested |
| `ProcessStatus.AfterCall` | app/services/activitypub/process_status_service.rb:12-26 | the attributes after `call`: unchanged unless the call updates; when the type matches and the lock is acquired, exactly the new attributes |
| `ProcessStatus.Status.Save` | app/services/activitypub/process_status_service.rb:37 | the stored row becomes the assigned attributes |
| `ProcessStatus.Status.UpdateImmediateAttributes` | app/services/activitypub/process_status_service.rb:31-38 | exactly the five attributes are assigned from the resolved text, spoiler text, sensitivity, language and edit time; the status is then saved |
| `ProcessStatus.Call` | app/services/activitypub/process_status_service.rb:6-27 | outcome and requested lock as above; the attributes change only on the updated path; the row is saved only there and is otherwise left as it was |
| `ProcessStatus.SkipChangesNothing` | app/services/activitypub/process_status_service.rb:12 | an object of another type takes no lock and changes no attribute |
| `ProcessStatus.RaceChangesNothing` | app/services/activitypub/process_status_service.rb:23-24 | a lock not acquired gives a race condition and changes no attribute |
| `ProcessStatus.UpdateOverwritesAll` | app/services/activitypub/process_status_service.rb:31-36 | on the updated path the old attributes do not matter; applying the same object twice with the same clock reading gives the same state as applying it once |
| `ProcessStatus.PlainNoteScenario` | app/services/activitypub/process_status_service.rb:31-36 | a Note with plain content, `sensitive` true and `updated` set gives that text, true, that time and language "und" |
| `ProcessStatus.PlainContentWithMapScenario` | app/services/activitypub/process_status_service.rb:32-36 | content "A" with contentMap {"fr" => "B"} from a sensitized account with no `updated`: text "A", language "fr", sensitive true, edit time = now |

## Left out

- The Redis lock (`RedisLock.acquire`, `Redis.current`, the 15-minute autorelease) is a foreign, distributed library. It is reduced to the `acquired` input of `Call` and the key it is asked for.
- `Status.transaction` and rollback are not modelled. `save` always commits the assigned attributes; validation failures and database errors are not modelled.
- `Time.now.utc` is the `now` parameter, a time in seconds since the epoch.
- `@account.sensitized?` is the `sensitized` field of the status's account, taken as given.
- `equals_or_includes_any?` lives in `JsonLdHelper`, which is not part of this model. It is modelled as: the value equals a needle, or it is an array that includes one.
- `detected_language` is not defined in the file. The model assumes it is `language_from_content`.
- Edit history, media changes and poll changes are TODOs in the source and are not modelled.
- The service's instance variables (`@json`, `@uri`, `@status`, `@account`) are parameters of the model's functions and methods.
- ActiveRecord's type casting of assigned values (for example a string `sensitive` cast to a boolean column) is not modelled. The `Status` attributes hold the Ruby values as assigned.
- The source never compares `@json['id']` with the status's own URI, so the model's `Status` carries no URI.
- `Document.id` is the string the id interpolates to. Interpolating a non-string id (a number, an array) is not modelled.
- `RubyValues.IsSpace` covers the Unicode White_Space characters. The fallback ActiveSupport uses for strings in other encodings is not modelled.
- Ruby hashes have unique keys. The model's entry sequences do not require this, and the first-entry rules do not depend on it.
