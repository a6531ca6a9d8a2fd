/**
 * The append-by-rewrite JSON store shared by both scrapers (`append_to_file`):
 * read the whole array stored under a file name (a missing file counts as an
 * empty array), extend it with a batch of records and write the whole array
 * back. A file that cannot be read or parsed as an array makes the call log
 * and return without writing.
 */
module Persistence {
  import opened Wrappers

  /**
   * What a file holds, as far as `json.load` followed by `list.extend` sees it:
   * a JSON array of records, or something whose reading, parsing or extending
   * raises (malformed JSON, an I/O error, a JSON value that is not an array).
   */
  datatype FileData<T> = JsonArray(items: seq<T>) | Unreadable

  /** The file stored under `name`; `None` when `os.path.exists` is false. */
  function Lookup<T>(files: map<string, FileData<T>>, name: string): Option<FileData<T>> {
    if name in files then Some(files[name]) else None
  }

  /** A file that `append_to_file` can extend: missing, or a readable array. */
  predicate Readable<T>(f: Option<FileData<T>>) {
    f.None? || f.value.JsonArray?
  }

  /** The records a readable file holds; a missing file holds none. */
  function Existing<T>(f: Option<FileData<T>>): seq<T>
    requires Readable(f)
  {
    if f.None? then [] else f.value.items
  }

  /** The directory after one `append_to_file(name, data)`. */
  function AfterAppend<T>(files: map<string, FileData<T>>, name: string, data: seq<T>): (r: map<string, FileData<T>>)
    ensures Readable(Lookup(files, name)) ==>
              Lookup(r, name) == Some(JsonArray(Existing(Lookup(files, name)) + data))
    ensures !Readable(Lookup(files, name)) ==> r == files
    ensures forall n :: n != name ==> Lookup(r, n) == Lookup(files, n)
  {
    match Lookup(files, name)
    case None =>
      assert [] + data == data;
      files[name := JsonArray(data)]
    case Some(JsonArray(xs)) => files[name := JsonArray(xs + data)]
    case Some(Unreadable) => files
  }

  /** The directory after appending each batch in turn to the file `name`. */
  function AppendBatches<T>(files: map<string, FileData<T>>, name: string, batches: seq<seq<T>>): map<string, FileData<T>>
    decreases |batches|
  {
    if batches == [] then files
    else AppendBatches(AfterAppend(files, name, batches[0]), name, batches[1..])
  }

  /** All batches one after the other. */
  function Concat<T>(batches: seq<seq<T>>): seq<T>
    decreases |batches|
  {
    if batches == [] then [] else batches[0] + Concat(batches[1..])
  }

  /**
   * Appending batch after batch to a readable file leaves the old records
   * followed by every batch in call order; no other file changes.
   */
  lemma {:induction false} AppendBatchesConcat<T>(files: map<string, FileData<T>>, name: string, batches: seq<seq<T>>)
    requires Readable(Lookup(files, name))
    ensures Readable(Lookup(AppendBatches(files, name, batches), name))
    ensures Existing(Lookup(AppendBatches(files, name, batches), name))
            == Existing(Lookup(files, name)) + Concat(batches)
    ensures batches != [] ==> name in AppendBatches(files, name, batches)
    ensures forall n :: n != name ==> Lookup(AppendBatches(files, name, batches), n) == Lookup(files, n)
    decreases |batches|
  {
    if batches != [] {
      var next := AfterAppend(files, name, batches[0]);
      AppendBatchesConcat(next, name, batches[1..]);
      assert Existing(Lookup(files, name)) + batches[0] + Concat(batches[1..])
          == Existing(Lookup(files, name)) + Concat(batches);
    }
  }

  /** A file that cannot be read or parsed survives any number of appends untouched, and so does the rest. */
  lemma {:induction false} AppendBatchesUnreadable<T>(files: map<string, FileData<T>>, name: string, batches: seq<seq<T>>)
    requires !Readable(Lookup(files, name))
    ensures AppendBatches(files, name, batches) == files
    decreases |batches|
  {
    if batches != [] {
      AppendBatchesUnreadable(files, name, batches[1..]);
    }
  }

  /** Two appends to a file that does not exist yet leave exactly `d1 ++ d2` in it. */
  lemma AppendTwiceToMissing<T>(files: map<string, FileData<T>>, name: string, d1: seq<T>, d2: seq<T>)
    requires name !in files
    ensures Lookup(AfterAppend(AfterAppend(files, name, d1), name, d2), name) == Some(JsonArray(d1 + d2))
  {
  }

  /** The files of one directory, which `append_to_file` rewrites one at a time. */
  class Directory<T> {
    var files: map<string, FileData<T>>

    constructor (files: map<string, FileData<T>>)
      ensures this.files == files
    {
      this.files := files;
    }

    /** `append_to_file(name, data)`: read, extend, rewrite; a failed read is logged and nothing is written. */
    method AppendToFile(name: string, data: seq<T>)
      modifies this
      ensures files == AfterAppend(old(files), name, data)
    {
      var existing: seq<T> := [];
      if name in files {
        match files[name]
        case Unreadable =>
          return;
        case JsonArray(xs) =>
          existing := xs;
      }
      existing := existing + data;
      files := files[name := JsonArray(existing)];
    }
  }
}
