# zk-monitor: diff-and-dispatch core in Dafny

This project models the core of zk-monitor, a tool that scrapes announcement
pages and pushes newly published notices to chat channels. The model covers
four parts:

- **The `Notice` record** (`framework/models.py`): a notice has a title, a url
  and a date. It converts to and from a three-key dictionary. Its url is its
  identity.
- **The per-monitor store** (`framework/storage.py`): a data directory maps each
  store file path to its saved list of records. `NoticeStorage` loads and saves
  one monitor's file at `<data_dir>/<monitor_name>.json`. `FindNew` is the
  url-set difference that defines which notices are new.
- **The run protocol** (`framework/runner.py`). `_run_monitor` fetches, checks
  for an empty result and loads the baseline. On a first run it tests every
  notifier and saves only if all tests pass. In steady state it sends the new
  notices to every notifier and then always saves. `run_all` skips entries that
  fail to construct. The collaborators are inputs: what `fetch()` does, what
  each notifier's `test()`/`send()` does (return True, return False, or raise),
  and whether each configuration entry constructs. A run returns the trace of
  calls it made (`Fetch`, `Load`, `Test(i, …)`, `Send(i, …)`, `Save(…)`) and
  which way it ended. Most properties are stated over that trace, as lemmas
  about the specification function `Protocol`. The methods `RunMonitor` and
  `RunAll` are proved to follow it.
- **The OneBot notifier** (`notifiers/onebot.py`): the constructor reads the
  url, token and group-id settings, `_headers` builds the request headers, and
  `send`/`test` format their messages. `_send_to_groups` posts to every group
  and folds the replies into one success flag. Each HTTP reply is an input.

Files: `wrappers.dfy` (Option/Result), `text.dfy` (the Python string builtins
the notifier uses: split, join, strip, rstrip, isdigit, int, str), `models.dfy`,
`storage.dfy`, `runner.dfy`, `onebot.dfy`.

Two facts about the code shape the model:

- `save` overwrites the store file in place.
- An unreadable baseline makes `load` raise. Nothing in `_run_monitor` or
  `run_all` catches it, so the whole cycle stops and later monitors do not run.
  The model's `Cycle` stops at the first `Crashed` run.

## Model

| member | source | states |
|---|---|---|
| Models.ToDict | framework/models.py:14-16 | the dictionary has exactly the keys `title`, `url`, `date`, each holding the same-named field |
| Models.FromDict | framework/models.py:18-21 | succeeds iff all three keys are present, building the notice from them; otherwise fails with the first missing key in the order title, url, date |
| Models.FromDictToDict | framework/models.py:14-21 | `from_dict(to_dict(n)) == n` for every notice |
| Models.FromDictIgnoresExtraKeys | framework/models.py:21 | keys other than the three fields never change the result |
| Models.NoticeEquality | framework/models.py:6-12 | two notices are equal iff title, url and date are all equal |
| Storage.Urls | framework/storage.py:31 | the set holds every saved url and nothing else |
| Storage.KeepUnseen | framework/storage.py:32 | the result holds exactly the notices of `current` whose url is not in the set, and is no longer than `current` |
| Storage.FindNew | framework/storage.py:29-32 | a notice is in the result iff it is in `current` and its url is not among the saved urls |
| Storage.FindNewConcat | framework/storage.py:32 | the diff of `a + b` is the diff of `a` followed by the diff of `b`, so `current`'s order is kept |
| Storage.FindNewSingle | framework/storage.py:32 | a single notice is kept iff its url was not saved; with FindNewConcat this pins the result down as the ordered subsequence |
| Storage.FindNewOfItself | framework/storage.py:31-32 | `find_new(A, A)` is empty |
| Storage.FindNewOfEmpty | framework/storage.py:31-32 | `find_new(A, [])` is `A` |
| Storage.FindNewDependsOnlyOnUrls | framework/storage.py:31 | saved lists with the same url set give the same diff, whatever their titles, dates, order or repetition |
| Storage.FindNewKeepsDuplicates | framework/storage.py:32 | each notice occurs in the result as often as in `current` if its url is new, else never, so there is no de-duplication |
| Storage.EncodeAll | framework/storage.py:27 | definition: one `to_dict` record per notice, in order; `DecodeEncode` is its inverse |
| Storage.DecodeAll | framework/storage.py:20-21 | succeeds iff every record decodes, giving the notices in order; a failure names the first bad record and its missing key |
| Storage.DecodeEncode | framework/storage.py:20-27 | decoding the records `save` writes gives back the saved list |
| Storage.StoragePath | framework/storage.py:13 | definition: `<data_dir>/<monitor_name>.json`; `StoragePathInjective` carries its property |
| Storage.LoadFrom | framework/storage.py:16-21 | definition: no file gives `[]`, otherwise the decoded file or its error; `LoadMissing`, `LoadAfterSave` and `SaveIsolated` carry its properties |
| Storage.StoragePathInjective | framework/storage.py:13 | distinct monitor names get distinct file paths |
| Storage.LoadMissing | framework/storage.py:18-19 | with no file for the monitor, `load` returns the empty list |
| Storage.LoadAfterSave | framework/storage.py:16-27 | after `save(xs)`, `load()` returns `xs` |
| Storage.SaveIsolated | framework/storage.py:12-13 | saving for one monitor name does not change what another monitor name loads |
| Storage.NoticeStorage.constructor | framework/storage.py:12-14 | the storage path is `data_dir/<monitor_name>.json` |
| Storage.NoticeStorage.Load | framework/storage.py:16-21 | returns the empty list when no file exists, else the decoded file or the decoding error |
| Storage.NoticeStorage.Save | framework/storage.py:23-27 | this monitor's file is replaced by the encoded list and no other file changes |
| Runner.TestCalls | framework/runner.py:87-89 | exactly one test call per notifier, the i-th for notifier i with its outcome |
| Runner.SendCalls | framework/runner.py:110-112 | exactly one send call per notifier with the same batch, the i-th for notifier i |
| Runner.Protocol | framework/runner.py:60-121 | definition of one `_run_monitor` call as a trace and an outcome; its properties are the lemmas from `FetchFailureEndsRun` to `NoSaveKeepsStore` below |
| Runner.TestAll | framework/runner.py:86-94 | the loop tests every notifier in order without stopping, and the flag ends true iff every test returned True without raising |
| Runner.SendAll | framework/runner.py:110-114 | the loop sends the batch to every notifier in order, and no outcome stops it |
| Runner.RunMonitor | framework/runner.py:60-121 | the run follows `Protocol` on the loaded baseline, and the directory changes only by the run's `Save` on this monitor's path |
| Runner.PersistedElsewhere | framework/runner.py:65 | a run never changes the file of any other path |
| Runner.FetchFailureEndsRun | framework/runner.py:68-72 | if fetch raises, the run makes no load, test, send or save |
| Runner.EmptyFetchEndsRun | framework/runner.py:74-76 | an empty fetch ends the run with no load, notifier call or save |
| Runner.CorruptBaselineEndsRun | framework/runner.py:78 | a failing load ends the run right after the load and carries the load's error |
| Runner.FirstRunWithoutNotifiers | framework/runner.py:81-85 | a first run with no notifiers tests nothing and saves nothing |
| Runner.FirstRunGate | framework/runner.py:86-100 | on a first run every notifier is tested once, in order; nothing is sent; `save(current)` happens iff every test returned True |
| Runner.SteadyStateSendsThenSaves | framework/runner.py:102-120 | in steady state each notifier gets exactly one send of `find_new(current, saved)`, in order, when that is non-empty, and none otherwise; then `save(current)` happens once, as the last call |
| Runner.SavesAreNonEmptyFetches | framework/runner.py:74-119 | every save is the last call, of the full fetched list, which is non-empty |
| Runner.SendOutcomesIgnored | framework/runner.py:110-119 | send results and exceptions change neither how the run ends nor what is saved |
| Runner.NextLoadSeesFetched | framework/runner.py:98-119 | after a run that saved, the next load of that monitor returns the fetched list |
| Runner.NoSaveKeepsStore | framework/runner.py:68-97 | a run that ends before saving leaves the store unchanged |
| Runner.ConstructedConcat | framework/runner.py:39-46 | the constructed entries of `a + b` are those of `a` followed by those of `b` (configuration order) |
| Runner.ConstructedMembers | framework/runner.py:39-46 | a value is among the constructed ones iff its entry constructed |
| Runner.Constructed | framework/runner.py:39-46 | definition: the values of the entries that constructed, in order; `ConstructedConcat` and `ConstructedMembers` carry its properties |
| Runner.Cycle | framework/runner.py:48-57 | definition of the monitor loop of `run_all`; `CycleRunsConstructedMonitors` and `CycleStopsAtCrash` carry its properties |
| Runner.RunAll | framework/runner.py:32-57 | the notifier list is the constructed notifier entries in order; the reports, the crash and the final directory are those of `Cycle` |
| Runner.CycleRunsConstructedMonitors | framework/runner.py:48-57 | without a crash, every monitor that constructed runs exactly once, in configuration order, and failed entries are skipped |
| Runner.CycleRunsConstructedPrefix | framework/runner.py:48-57 | with or without a crash, the monitors that ran are an initial segment of the constructed monitors, in configuration order, none skipped or repeated |
| Runner.CycleStopsAtCrash | framework/runner.py:48-78 | a crash is reported by the cycle's last run and by no earlier one |
| Runner.ScenarioNewNotice | framework/runner.py:102-119 | baseline `[a]`, fetch `[a, b]`: one send of `[b]`, then `[a, b]` is saved |
| Runner.ScenarioFirstRun | framework/runner.py:81-100 | no baseline, one passing notifier: one test, the fetch is saved, no send |
| Runner.ScenarioNoNotifiers | framework/runner.py:81-85 | no baseline, no notifiers: nothing is saved |
| Runner.ScenarioPageShrank | framework/runner.py:102-119 | baseline `[a, b]`, fetch `[a]`: no send, and `[a]` is saved |
| Text.Split | notifiers/onebot.py:22 | `split(",")` gives at least one piece, even for the empty string |
| Text.SplitPiecesWithoutSep | notifiers/onebot.py:22 | no piece of a split contains the separator |
| Text.JoinSplit | notifiers/onebot.py:22 | joining the pieces of a split gives back the string |
| Text.SplitJoin | notifiers/onebot.py:22 | splitting a join of separator-free pieces gives back the pieces |
| Text.SplitConcat | notifiers/onebot.py:22 | splitting at one separator splits both sides independently |
| Text.SplitWithoutSep | notifiers/onebot.py:22 | a string without the separator splits into itself alone |
| Text.Join | notifiers/onebot.py:64 | definition of `sep.join`; `JoinSplit`, `SplitJoin` and `JoinPartAt` carry its properties |
| Text.TrimRight | notifiers/onebot.py:18 | `rstrip` gives a prefix with only stripped characters removed, and the prefix does not end in one |
| Text.TrimLeft | notifiers/onebot.py:21-23 | `lstrip` gives a suffix with only stripped characters removed, and the suffix does not start with one |
| Text.NatToString | notifiers/onebot.py:61 | `str(n)` is non-empty ASCII digits with no leading zero except for `"0"` |
| Text.DecimalValueOfNatToString | notifiers/onebot.py:61 | `int(str(n)) == n` |
| Text.DecimalValueLeadingZero | notifiers/onebot.py:21 | a leading zero does not change the value `int` reads |
| Text.ZerosValue | notifiers/onebot.py:21 | any number of leading zeros leaves the value `int` reads unchanged |
| Text.StripUnpadded | notifiers/onebot.py:21 | a string that neither starts nor ends with whitespace is unchanged by `strip()` |
| Text.StripIsSlice | notifiers/onebot.py:21 | `strip(s)` is the contiguous slice of `s` that starts after the removed leading characters |
| Text.StripKeeps | notifiers/onebot.py:21 | every character that is not whitespace stays in `strip(s)`, at its own index minus the number of leading characters removed |
| Text.Strip | notifiers/onebot.py:21 | definition: `lstrip` then `rstrip` of ASCII whitespace; `StripUnpadded` and `StripKeeps` carry its properties |
| Text.JoinPartAt | notifiers/onebot.py:64 | every piece of a `join` sits at its computed offset in the joined string |
| OneBot.ParseTokensConcat | notifiers/onebot.py:20-24 | the ids of `a + b` are those of `a` followed by those of `b` |
| OneBot.ParseGroupIdsComma | notifiers/onebot.py:20-24 | the ids of `a,b` are those of `a` followed by those of `b`, so the setting's order is kept |
| OneBot.TokenId | notifiers/onebot.py:21-23 | definition: the stripped token's integer if it is all digits, else nothing; `TokenIdOfNat`, `TokenIdZeroPadded` and `TokenIdRejects` carry its properties |
| OneBot.ParseGroupIds | notifiers/onebot.py:20-24 | definition: split at commas, then one `TokenId` per piece; `ParseGroupIdsComma`, `ParseGroupIdsToken` and `ParseGroupIdsOfNat` carry its properties |
| OneBot.ParseGroupIdsToken | notifiers/onebot.py:20-24 | a setting without a comma is one token, read on its own |
| OneBot.TokenIdOfNat | notifiers/onebot.py:21-23 | a token holding the decimal text of `n` gives exactly the id `n` |
| OneBot.TokenIdZeroPadded | notifiers/onebot.py:21-23 | a zero-padded number such as `007` gives the number itself |
| OneBot.TokenIdRejects | notifiers/onebot.py:21-23 | a token with any character that is neither a digit nor whitespace gives no id |
| OneBot.ParseGroupIdsOfNat | notifiers/onebot.py:20-24 | a setting holding one number gives exactly that id |
| OneBot.Headers | notifiers/onebot.py:26-31 | `Content-Type: application/json` is always present; `Authorization: Bearer <token>` is present iff the token is non-empty; there are no other keys |
| OneBot.ReportsSuccess | notifiers/onebot.py:48 | definition: a reply object counts as success iff `status` is `"ok"` or `retcode` equals 0 (including `0.0` and `False`); `OneBotNotifier.SendToGroups` folds it over every post |
| OneBot.OneBotNotifier.Configured | notifiers/onebot.py:35 | definition: a url and at least one group id are set, the guard of `_send_to_groups` and `test` (line 69); `OneBotNotifier.SendToGroups` and `OneBotNotifier.Test` carry its effect |
| OneBot.SendHeader | notifiers/onebot.py:61 | definition of the first line, `【name新通知（k条）】` and a newline; `SendTextHeader` carries its property |
| OneBot.NoticeBlock | notifiers/onebot.py:63 | definition of one notice's block, `date  title`, newline, url, newline; `SendTextMentionsEveryNotice` carries its property |
| OneBot.SendText | notifiers/onebot.py:61-64 | definition: the header and the blocks joined by newlines; `SendTextHeader`, `SendTextMentionsEveryNotice` and `SendTextOfNothing` carry its properties |
| OneBot.TestText | notifiers/onebot.py:73 | definition of the test message; `OneBotNotifier.Test` posts exactly it |
| OneBot.SendTextHeader | notifiers/onebot.py:61-64 | the send message starts with the header line, whose count reads back as the number of notices |
| OneBot.SendTextMentionsEveryNotice | notifiers/onebot.py:61-64 | every notice's block (`date  title`, newline, url) and its url occur in the send message |
| OneBot.SendTextOfNothing | notifiers/onebot.py:61-64 | with no notices the message is the header line alone |
| OneBot.OneBotNotifier.constructor | notifiers/onebot.py:17-24 | `http_url` is the setting with trailing `/` removed; `group_ids` is the parsed id list |
| OneBot.OneBotNotifier.SendToGroups | notifiers/onebot.py:33-57 | posts nothing and returns False when unconfigured; otherwise posts once per group, in order, to `http_url/send_group_msg` with the headers; returns True iff no post raised and every reply is an object with `status == "ok"` or `retcode == 0` |
| OneBot.OneBotNotifier.Send | notifiers/onebot.py:59-65 | posts the formatted message to every group, and the result is that of `_send_to_groups` |
| OneBot.OneBotNotifier.Test | notifiers/onebot.py:67-77 | returns False without posting when unconfigured; otherwise posts the test message, and the result is that of `_send_to_groups` |

## Left out

- JSON text: the store file is modelled as a list of string-valued records, not as bytes. A file that is not valid JSON, not a list, or holds non-string values is not modelled. The only load failure modelled is a missing key.
- File system: `mkdir` and `exists` are left out, and the data directory is a map from path to contents. The `pathlib` rules that make some different names share a path are not modelled: absolute names, repeated `/` and `.` segments. So `StoragePathInjective` holds for the path strings, not for the files they name.
- Crash consistency: `save` overwrites in place, with no write-then-rename step, and a crash part-way through a write is not modelled; no atomicity is claimed.
- HTTP: `requests.post` and `resp.json()` are inputs. A reply is either "raised" or a JSON value. JSON numbers are reals, so Python's float rounding (for example `1e-400` reading as `0.0`) is not modelled.
- OneBot.TokenIdRejects: only ASCII digits count as digits and only ASCII whitespace is stripped. Python's `isdigit`/`strip` also accept other Unicode characters, and `int()` raises on some digits `isdigit` accepts (such as `²`), which would make the constructor raise; the model gives no id for such a token.
- OneBot.TokenId: Python's `int()` refuses strings of more than 4300 digits (leading zeros included) by default since 3.11, so a longer all-digit token makes the constructor raise and `run_all` skip the notifier; the model reads it as a number, and `TokenIdOfNat` and `TokenIdZeroPadded` state that unbounded reading.
- Runner.RunAll: `_import_class`/`_instantiate` and YAML loading are left out; each entry's construction is an input. An entry without a `class` key makes the error handler itself raise, ending `run_all`. The model skips every failed entry instead.
- Collaborators: each notifier's `test`/`send` outcome and each monitor's fetch outcome are fixed for the cycle. The message text passed to a notifier is not linked to its outcome, and the OneBot class is not plugged into the runner's notifier list.
- Logging (every `logger` call), `os.getenv` (the settings are constructor parameters), and `main.py` are left out.
- The Feishu notifier (HMAC signing, wall-clock time, webhook) and the site scrapers (HTML parsing with BeautifulSoup) are not part of this model.
- The abstract base classes in `framework/monitor.py` and `framework/notifier.py` have no behaviour. They appear only as the shapes of `Monitor` and `Notifier`.
