/** The announcement record and its dictionary form (framework/models.py). */
module Models {
  import opened Wrappers

  /** One announcement. The diff identifies notices by `url` alone. */
  datatype Notice = Notice(title: string, url: string, date: string)

  /** A decoded JSON object of the store file: field name to string value. */
  type Record = map<string, string>

  const TitleKey: string := "title"
  const UrlKey: string := "url"
  const DateKey: string := "date"

  /** `Notice.to_dict`: exactly the three keys, each holding its field. */
  function ToDict(n: Notice): (d: Record)
    ensures d.Keys == {TitleKey, UrlKey, DateKey}
    ensures d[TitleKey] == n.title && d[UrlKey] == n.url && d[DateKey] == n.date
  {
    map[TitleKey := n.title, UrlKey := n.url, DateKey := n.date]
  }

  /**
    `Notice.from_dict`: reads `title`, `url` and `date` in that order; the first
    missing key is the error (Python's `KeyError`). Other keys are ignored.
  */
  function FromDict(d: Record): (r: Result<Notice, string>)
    ensures r.Success? <==> TitleKey in d && UrlKey in d && DateKey in d
    ensures r.Success? ==> r.value == Notice(d[TitleKey], d[UrlKey], d[DateKey])
    ensures r.Failure? ==> r.error in {TitleKey, UrlKey, DateKey} && r.error !in d
    ensures r.Failure? && r.error == UrlKey ==> TitleKey in d
    ensures r.Failure? && r.error == DateKey ==> TitleKey in d && UrlKey in d
  {
    if TitleKey !in d then Failure(TitleKey)
    else if UrlKey !in d then Failure(UrlKey)
    else if DateKey !in d then Failure(DateKey)
    else Success(Notice(d[TitleKey], d[UrlKey], d[DateKey]))
  }

  /** `from_dict(to_dict(n)) == n`. */
  lemma FromDictToDict(n: Notice)
    ensures FromDict(ToDict(n)) == Success(n)
  {
  }

  /** Keys other than the three fields never change what `from_dict` returns. */
  lemma FromDictIgnoresExtraKeys(d: Record, extra: Record)
    requires extra.Keys !! {TitleKey, UrlKey, DateKey}
    ensures FromDict(d + extra) == FromDict(d)
  {
  }

  /** Dataclass equality: two notices are equal iff all three fields are. */
  lemma NoticeEquality(a: Notice, b: Notice)
    ensures a == b <==> a.title == b.title && a.url == b.url && a.date == b.date
  {
  }
}
