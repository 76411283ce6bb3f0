/** The persistent key-value store: the in-memory map `clipboardData`, the
    file clipboard.json behind it, and the three store operations (add,
    retrieve, list). The file system and the OS clipboard are inputs. */
module Clipboard {
  import opened Output

  datatype Option<T> = None | Some(value: T)

  /** What clipboard.json holds. JSON itself is abstracted away: a file either
      holds a decodable key-value object, is missing, cannot be opened, or
      does not decode. */
  datatype FileState = Absent | Holds(entries: map<string, string>) | Unopenable | Undecodable

  /** How a save went: the file could not be created (it is left as it was),
      or it was created, hence truncated, and then the write failed. */
  datatype SaveResult = Saved | NotSaved(failure: SaveFailure)

  /** How a write to the OS clipboard went. */
  datatype WriteResult = Written | WriteFailed

  datatype LoadResult = Loaded(entries: map<string, string>) | NotLoaded(failure: LoadFailure)

  /** Everything one operation, or one whole invocation, does: the map and the
      file afterwards, the lines printed, the exit status, whether a save was
      attempted and what was handed to the OS clipboard. */
  datatype Outcome = Outcome(
    data: map<string, string>,
    file: FileState,
    out: seq<Msg>,
    exit: int,
    saveAttempted: bool,
    copied: Option<string>)

  /** loadClipboard: a missing file is an empty store; an unopenable or
      undecodable file is a failure. */
  function LoadFile(f: FileState): (r: LoadResult)
    ensures r.NotLoaded? <==> f.Unopenable? || f.Undecodable?
    ensures r.Loaded? && f.Absent? ==> r.entries == map[]
  {
    match f
    case Absent => Loaded(map[])
    case Holds(m) => Loaded(m)
    case Unopenable => NotLoaded(OpenFailed)
    case Undecodable => NotLoaded(DecodeFailed)
  }

  /** saveClipboard's effect on the file: a successful save writes the whole
      map, a failed create leaves the file alone, a failed write after the
      create leaves a truncated file. */
  function SavedFile(f: FileState, m: map<string, string>, save: SaveResult): (r: FileState)
    ensures save.Saved? ==> LoadFile(r) == Loaded(m)
    ensures save == NotSaved(CreateFailed) ==> r == f
    ensures save == NotSaved(EncodeFailed) ==> LoadFile(r) == NotLoaded(DecodeFailed)
  {
    match save
    case Saved => Holds(m)
    case NotSaved(CreateFailed) => f
    case NotSaved(EncodeFailed) => Undecodable
  }

  /** addToClipboard on map `m` and file `f`. */
  function AddEffect(m: map<string, string>, f: FileState, key: string, value: string, save: SaveResult): (r: Outcome)
    ensures r.exit == 0 && r.copied == None
    // An empty key is reported; nothing changes and no save is attempted.
    ensures key == "" ==> r.data == m && r.file == f && !r.saveAttempted && r.out == [EmptyKey]
    // Otherwise the key is bound to the value, overwriting, and a save is attempted.
    ensures key != "" ==> r.saveAttempted && key in r.data && r.data[key] == value
    ensures r.data.Keys == m.Keys + (if key == "" then {} else {key})
    ensures forall k :: k in m && k != key ==> r.data[k] == m[k]
    // The confirmation, naming value and key, is printed exactly when the save succeeded.
    ensures Added(value, key) in r.out <==> key != "" && save.Saved?
    ensures key != "" && save.Saved? ==> r.out == [Added(value, key)] && LoadFile(r.file) == Loaded(r.data)
    ensures key != "" && save.NotSaved? ==> r.out == [SaveError(save.failure)]
  {
    if key == "" then Outcome(m, f, [EmptyKey], 0, false, None)
    else
      var m' := m[key := value];
      var out := if save.Saved? then [Added(value, key)] else [SaveError(save.failure)];
      Outcome(m', SavedFile(f, m', save), out, 0, true, None)
  }

  /** retrieveFromClipboard on map `m`; `copyToOS` selects the `copy` command
      and `clip` is how the OS clipboard write goes, if one is made. */
  function RetrieveEffect(m: map<string, string>, f: FileState, key: string, copyToOS: bool, clip: WriteResult): (r: Outcome)
    // Retrieval never changes the store, never saves and always exits 0.
    ensures r.data == m && r.file == f && r.exit == 0 && !r.saveAttempted
    ensures key == "" ==> r.out == [EmptyKey] && r.copied == None
    ensures key != "" && key !in m ==> r.out == [NotFound(key)] && r.copied == None
    // Only `copy` of a stored value writes to the OS clipboard, and it writes that value.
    ensures r.copied.Some? <==> copyToOS && key != "" && key in m
    ensures r.copied.Some? ==> r.copied.value == m[key]
    // A stored value reaches the user exactly once: bare, or through the clipboard.
    ensures key != "" && key in m ==> (Plain(m[key]) in r.out <==> Copied(m[key]) !in r.out)
    ensures key != "" && key in m && !copyToOS ==> r.out == [Plain(m[key])]
    ensures key != "" && key in m && copyToOS && clip.Written? ==> r.out == [Copied(m[key])]
    ensures key != "" && key in m && copyToOS && clip.WriteFailed? ==> r.out == [CopyWarning, Plain(m[key])]
  {
    if key == "" then Outcome(m, f, [EmptyKey], 0, false, None)
    else if key !in m then Outcome(m, f, [NotFound(key)], 0, false, None)
    else if !copyToOS then Outcome(m, f, [Plain(m[key])], 0, false, None)
    else if clip.Written? then Outcome(m, f, [Copied(m[key])], 0, false, Some(m[key]))
    else Outcome(m, f, [CopyWarning, Plain(m[key])], 0, false, Some(m[key]))
  }

  /** No key occurs twice. */
  predicate Distinct(keys: seq<string>)
  {
    forall i, j :: 0 <= i < j < |keys| ==> keys[i] != keys[j]
  }

  /** `order` visits every key of `keys` exactly once: one of the orders in
      which Go's range over a map may yield its keys. */
  predicate IsEnumeration(order: seq<string>, keys: set<string>)
  {
    Distinct(order) && (forall k :: k in order ==> k in keys) && (forall k :: k in keys ==> k in order)
  }

  /** One "  - <key>" line per key, in order: a key's line appears exactly
      when the key is in `order`, and distinct keys give distinct lines. */
  function KeyLines(order: seq<string>): (r: seq<Msg>)
    ensures |r| == |order|
    ensures forall k :: KeyLine(k) in r <==> k in order
    ensures Distinct(order) ==> forall i, j :: 0 <= i < j < |r| ==> r[i] != r[j]
  {
    var r := seq(|order|, i requires 0 <= i < |order| => KeyLine(order[i]));
    LinePerKey(order, r);
    r
  }

  /** Lines built one per key name exactly the keys. */
  lemma LinePerKey(order: seq<string>, r: seq<Msg>)
    requires |r| == |order| && forall i :: 0 <= i < |order| ==> r[i] == KeyLine(order[i])
    ensures forall k :: KeyLine(k) in r <==> k in order
  {
    forall k ensures KeyLine(k) in r <==> k in order {
      if k in order {
        var i :| 0 <= i < |order| && order[i] == k;
        assert r[i] == KeyLine(k);
      }
    }
  }

  /** listAllKeys' output when the keys are visited in `order`: the empty
      message exactly for the empty map, otherwise the header followed by the
      key lines. */
  function ListLines(m: map<string, string>, order: seq<string>): (r: seq<Msg>)
    ensures r == [StoreEmpty] <==> |m| == 0
    ensures |m| > 0 ==> |r| == |order| + 1 && r[0] == KeysHeader
    ensures |m| > 0 ==> forall k :: KeyLine(k) in r <==> k in order
    ensures |m| > 0 && Distinct(order) ==> forall i, j :: 0 <= i < j < |r| ==> r[i] != r[j]
  {
    if |m| == 0 then [StoreEmpty]
    else
      var r := [KeysHeader] + KeyLines(order);
      assert r[0] != StoreEmpty;
      r
  }

  /** listAllKeys on map `m`, visiting the keys in `order`: nothing changes,
      and when `order` visits each key once the output names exactly the
      stored keys. */
  function ListEffect(m: map<string, string>, f: FileState, order: seq<string>): (r: Outcome)
    ensures r.data == m && r.file == f && r.exit == 0 && !r.saveAttempted && r.copied == None
    ensures r.out == ListLines(m, order)
    ensures IsEnumeration(order, m.Keys) ==>
      (r.out == [StoreEmpty] <==> |m| == 0) && (forall k :: KeyLine(k) in r.out <==> k in m)
  {
    Outcome(m, f, ListLines(m, order), 0, false, None)
  }

  /** A sequence without repetitions has as many elements as the set of its elements. */
  lemma {:induction false} DistinctCardinality(s: seq<string>)
    requires Distinct(s)
    ensures |set k | k in s| == |s|
  {
    if s != [] {
      var rest := s[1..];
      assert Distinct(rest);
      DistinctCardinality(rest);
      assert (set k | k in s) == (set k | k in rest) + {s[0]};
      assert s[0] !in rest;
    }
  }

  /** An enumeration of a map's keys is exactly as long as the map. */
  lemma EnumerationLength(order: seq<string>, m: map<string, string>)
    requires IsEnumeration(order, m.Keys)
    ensures |order| == |m|
  {
    DistinctCardinality(order);
    assert (set k | k in order) == m.Keys;
  }

  /** listAllKeys reports "Clipboard is empty" exactly when the map is empty;
      otherwise it prints the header and one line per key, each key once and
      no other key, in whatever order the map is visited. */
  lemma ListNamesEveryKeyOnce(m: map<string, string>, order: seq<string>)
    requires IsEnumeration(order, m.Keys)
    ensures ListLines(m, order) == [StoreEmpty] <==> |m| == 0
    ensures |m| > 0 ==> ListLines(m, order)[0] == KeysHeader && |ListLines(m, order)| == |m| + 1
    ensures forall k :: KeyLine(k) in ListLines(m, order) <==> k in m
    ensures forall i, j :: 0 <= i < j < |ListLines(m, order)| ==> ListLines(m, order)[i] != ListLines(m, order)[j]
  {
    EnumerationLength(order, m);
  }

  /** The global store of the program: `data` is `clipboardData`, `file` the
      current contents of clipboard.json. */
  class Store {
    var data: map<string, string>
    var file: FileState

    /** `make(map[string]string)`, with clipboard.json as found on disk. */
    constructor (file: FileState)
      ensures data == map[] && this.file == file
    {
      data := map[];
      this.file := file;
    }

    /** loadClipboard: decoding adds the file's entries to the map. */
    method Load() returns (failure: Option<LoadFailure>)
      modifies this`data
      ensures LoadFile(file).Loaded? ==> failure == None && data == old(data) + LoadFile(file).entries
      ensures LoadFile(file).NotLoaded? ==> failure == Some(LoadFile(file).failure) && data == old(data)
    {
      match file
      case Absent =>
        failure := None;
      case Holds(entries) =>
        data := data + entries;
        failure := None;
      case Unopenable =>
        failure := Some(OpenFailed);
      case Undecodable =>
        failure := Some(DecodeFailed);
    }

    /** saveClipboard: writes the whole map, overwriting the file. */
    method Save(result: SaveResult) returns (ok: bool)
      modifies this`file
      ensures ok == result.Saved?
      ensures file == SavedFile(old(file), data, result)
    {
      match result
      case Saved =>
        file := Holds(data);
        ok := true;
      case NotSaved(CreateFailed) =>
        ok := false;
      case NotSaved(EncodeFailed) =>
        file := Undecodable;
        ok := false;
    }

    /** addToClipboard: the map is updated first, then saved. */
    method Add(key: string, value: string, save: SaveResult) returns (out: seq<Msg>, saveAttempted: bool)
      modifies this
      ensures Outcome(data, file, out, 0, saveAttempted, None) == AddEffect(old(data), old(file), key, value, save)
    {
      if key == "" {
        out, saveAttempted := [EmptyKey], false;
        return;
      }
      data := data[key := value];
      saveAttempted := true;
      var ok := Save(save);
      if !ok {
        out := [SaveError(save.failure)];
        return;
      }
      out := [Added(value, key)];
    }

    /** listAllKeys: the keys are visited in an order the map chooses; the
        order used is returned so that callers can relate the output to it. */
    method ListAllKeys() returns (out: seq<Msg>, order: seq<string>)
      ensures IsEnumeration(order, data.Keys)
      ensures out == ListLines(data, order)
    {
      order := [];
      if |data| == 0 {
        out := [StoreEmpty];
        return;
      }
      out := [KeysHeader];
      var rest := data.Keys;
      while rest != {}
        invariant rest <= data.Keys
        invariant Distinct(order)
        invariant forall k :: k in order ==> k in data.Keys && k !in rest
        invariant forall k :: k in data.Keys ==> k in order || k in rest
        invariant out == [KeysHeader] + KeyLines(order)
        decreases rest
      {
        var k :| k in rest;
        out := out + [KeyLine(k)];
        order := order + [k];
        rest := rest - {k};
      }
    }
  }
}
