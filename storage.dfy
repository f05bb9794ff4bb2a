/**
  The per-monitor notice store (framework/storage.py): the URL diff that
  defines "new", the dictionary encoding of a saved list, and the store itself
  as a data directory mapping file paths to their saved records.
*/
module Storage {
  import opened Wrappers
  import opened Models

  /** The URLs of a saved list (`saved_urls` in `find_new`). */
  function Urls(saved: seq<Notice>): (urls: set<string>)
    ensures forall n :: n in saved ==> n.url in urls
    ensures forall u :: u in urls ==> exists n :: n in saved && n.url == u
  {
    set n | n in saved :: n.url
  }

  /** The notices of `current` whose URL is not in `seen`, in order. */
  function KeepUnseen(current: seq<Notice>, seen: set<string>): (r: seq<Notice>)
    ensures |r| <= |current|
    ensures forall n :: n in r <==> n in current && n.url !in seen
  {
    if current == [] then []
    else (if current[0].url in seen then [] else [current[0]]) + KeepUnseen(current[1..], seen)
  }

  /** `NoticeStorage.find_new`: what counts as new in `current` relative to `saved`. */
  function FindNew(current: seq<Notice>, saved: seq<Notice>): (r: seq<Notice>)
    ensures forall n :: n in r <==> n in current && n.url !in Urls(saved)
  {
    KeepUnseen(current, Urls(saved))
  }

  /** The diff distributes over concatenation of the current list (order is kept). */
  lemma {:induction false} FindNewConcat(a: seq<Notice>, b: seq<Notice>, saved: seq<Notice>)
    ensures FindNew(a + b, saved) == FindNew(a, saved) + FindNew(b, saved)
  {
    KeepUnseenConcat(a, b, Urls(saved));
  }

  lemma {:induction false} KeepUnseenConcat(a: seq<Notice>, b: seq<Notice>, seen: set<string>)
    ensures KeepUnseen(a + b, seen) == KeepUnseen(a, seen) + KeepUnseen(b, seen)
  {
    if a != [] {
      assert (a + b)[0] == a[0];
      assert (a + b)[1..] == a[1..] + b;
      KeepUnseenConcat(a[1..], b, seen);
    } else {
      assert a + b == b;
    }
  }

  /** A single notice is kept exactly when its URL was not saved. */
  lemma FindNewSingle(x: Notice, saved: seq<Notice>)
    ensures FindNew([x], saved) == if x.url in Urls(saved) then [] else [x]
  {
    assert [x][1..] == [];
  }

  /** Nothing is new relative to itself. */
  lemma FindNewOfItself(a: seq<Notice>)
    ensures FindNew(a, a) == []
  {
    KeepUnseenAllSeen(a, Urls(a));
  }

  lemma {:induction false} KeepUnseenAllSeen(current: seq<Notice>, seen: set<string>)
    requires forall n :: n in current ==> n.url in seen
    ensures KeepUnseen(current, seen) == []
  {
    if current != [] {
      assert current[0] in current;
      KeepUnseenAllSeen(current[1..], seen);
    }
  }

  /** Everything is new relative to an empty saved list. */
  lemma {:induction false} FindNewOfEmpty(a: seq<Notice>)
    ensures FindNew(a, []) == a
  {
    if a != [] {
      FindNewOfEmpty(a[1..]);
      assert a == [a[0]] + a[1..];
    }
  }

  /** Only the set of saved URLs matters, not titles, dates, order or repetition. */
  lemma FindNewDependsOnlyOnUrls(current: seq<Notice>, saved1: seq<Notice>, saved2: seq<Notice>)
    requires Urls(saved1) == Urls(saved2)
    ensures FindNew(current, saved1) == FindNew(current, saved2)
  {
  }

  /** Duplicates in `current` are all kept or all dropped: no de-duplication. */
  lemma {:induction false} FindNewKeepsDuplicates(current: seq<Notice>, saved: seq<Notice>, n: Notice)
    ensures multiset(FindNew(current, saved))[n] ==
            if n.url in Urls(saved) then 0 else multiset(current)[n]
  {
    KeepUnseenCount(current, Urls(saved), n);
  }

  lemma {:induction false} KeepUnseenCount(current: seq<Notice>, seen: set<string>, n: Notice)
    ensures multiset(KeepUnseen(current, seen))[n] == if n.url in seen then 0 else multiset(current)[n]
  {
    if current != [] {
      KeepUnseenCount(current[1..], seen, n);
      assert current == [current[0]] + current[1..];
    }
  }

  /** The records written for a list of notices (`[n.to_dict() for n in notices]`). */
  function EncodeAll(notices: seq<Notice>): seq<Record>
  {
    seq(|notices|, i requires 0 <= i < |notices| => ToDict(notices[i]))
  }

  /** Why a baseline file could not be read: record `index` lacks `key`. */
  datatype LoadError = MissingKey(index: nat, key: string)

  /** `[Notice.from_dict(d) for d in records]`; the first bad record raises. */
  function DecodeAll(records: seq<Record>): (r: Result<seq<Notice>, LoadError>)
    ensures r.Success? ==>
      |r.value| == |records| &&
      forall i :: 0 <= i < |records| ==> FromDict(records[i]) == Success(r.value[i])
    ensures r.Failure? ==>
      r.error.index < |records| &&
      FromDict(records[r.error.index]) == Failure(r.error.key) &&
      forall i :: 0 <= i < r.error.index ==> FromDict(records[i]).Success?
  {
    if records == [] then Success([])
    else match FromDict(records[0])
      case Failure(key) => Failure(MissingKey(0, key))
      case Success(n) =>
        match DecodeAll(records[1..])
        case Failure(e) => Failure(MissingKey(e.index + 1, e.key))
        case Success(ns) => Success([n] + ns)
  }

  /** Decoding what was encoded gives back the same list. */
  lemma DecodeEncode(notices: seq<Notice>)
    ensures DecodeAll(EncodeAll(notices)) == Success(notices)
  {
    var r := DecodeAll(EncodeAll(notices));
    if r.Failure? {
      FromDictToDict(notices[r.error.index]);
      assert false;
    } else {
      forall i | 0 <= i < |notices| ensures r.value[i] == notices[i] {
        FromDictToDict(notices[i]);
      }
      assert r.value == notices;
    }
  }

  /** The store file of a monitor: `data_dir / f"{monitor_name}.json"`. */
  function StoragePath(root: string, monitorName: string): string
  {
    root + "/" + monitorName + ".json"
  }

  /** Distinct monitor names get distinct files. */
  lemma StoragePathInjective(root: string, a: string, b: string)
    requires StoragePath(root, a) == StoragePath(root, b)
    ensures a == b
  {
    var pa, pb := StoragePath(root, a), StoragePath(root, b);
    assert |a| == |b|;
    assert a == pa[|root| + 1..|root| + 1 + |a|];
    assert b == pb[|root| + 1..|root| + 1 + |b|];
  }

  /** What `load` returns for `path` given the directory contents. */
  function LoadFrom(files: map<string, seq<Record>>, path: string): Result<seq<Notice>, LoadError>
  {
    if path !in files then Success([]) else DecodeAll(files[path])
  }

  /** With no file for this monitor, `load` returns the empty list. */
  lemma LoadMissing(files: map<string, seq<Record>>, path: string)
    requires path !in files
    ensures LoadFrom(files, path) == Success([])
  {
  }

  /** After `save(xs)`, `load()` returns `xs`. */
  lemma LoadAfterSave(files: map<string, seq<Record>>, path: string, notices: seq<Notice>)
    ensures LoadFrom(files[path := EncodeAll(notices)], path) == Success(notices)
  {
    DecodeEncode(notices);
  }

  /** Saving for one monitor leaves what another monitor loads unchanged. */
  lemma SaveIsolated(files: map<string, seq<Record>>, root: string, saver: string, loader: string, records: seq<Record>)
    requires saver != loader
    ensures LoadFrom(files[StoragePath(root, saver) := records], StoragePath(root, loader)) ==
            LoadFrom(files, StoragePath(root, loader))
  {
    if StoragePath(root, saver) == StoragePath(root, loader) {
      StoragePathInjective(root, saver, loader);
    }
  }

  /** The data directory: every store file by path, each holding a list of records. */
  class DataDir {
    const root: string
    var files: map<string, seq<Record>>

    constructor(root: string, files: map<string, seq<Record>>)
      ensures this.root == root && this.files == files
    {
      this.root := root;
      this.files := files;
    }
  }

  /** `NoticeStorage`: one monitor's view of the data directory. */
  class NoticeStorage {
    const path: string
    const dataDir: DataDir

    constructor(monitorName: string, dataDir: DataDir)
      ensures path == StoragePath(dataDir.root, monitorName) && this.dataDir == dataDir
    {
      path := StoragePath(dataDir.root, monitorName);
      this.dataDir := dataDir;
    }

    /** `load`: the empty list when there is no file, else the decoded records. */
    method Load() returns (r: Result<seq<Notice>, LoadError>)
      ensures r == LoadFrom(dataDir.files, path)
    {
      if path !in dataDir.files {
        return Success([]);
      }
      r := DecodeAll(dataDir.files[path]);
    }

    /** `save`: replaces this monitor's file with the whole list; nothing else changes. */
    method Save(notices: seq<Notice>)
      modifies dataDir
      ensures dataDir.files == old(dataDir.files)[path := EncodeAll(notices)]
    {
      dataDir.files := dataDir.files[path := EncodeAll(notices)];
    }
  }
}
