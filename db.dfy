/**
 * The directory registry of mnemosync (config/db.go): a counter of issued
 * identifiers and a map from their decimal renderings to tracked
 * directories, loaded from and updated in memory.
 */
module Db {
  import opened Wrappers
  import opened FilePath
  import opened Os
  import opened StrConv
  import Config

  newtype int64 = x: int | -0x8000_0000_0000_0000 <= x <= 0x7fff_ffff_ffff_ffff

  const MaxInt64: int64 := 0x7fff_ffff_ffff_ffff

  datatype DirData = DirData(targetPath: Path, alias: string)

  /**
   * Every key is the decimal rendering of an identifier already issued,
   * i.e. of some n in 1..currentId; n is the value the key reads back as.
   */
  ghost predicate KeysIssued(dirs: map<string, DirData>, currentId: int) {
    && 0 <= currentId
    && forall k :: k in dirs ==> IssuedKey(k, currentId)
  }

  ghost predicate IssuedKey(k: string, currentId: int) {
    var n := ParseDecimal(k);
    n.Some? && 1 <= n.value <= currentId && k == FormatInt(n.value)
  }

  /** `IssuedKey` says exactly that the key renders some n in 1..currentId. */
  lemma IssuedKeyIsRendering(k: string, currentId: int)
    ensures IssuedKey(k, currentId) <==> exists n :: 1 <= n <= currentId && k == FormatInt(n)
  {
    if exists n :: 1 <= n <= currentId && k == FormatInt(n) {
      var n :| 1 <= n <= currentId && k == FormatInt(n);
      FormatIntRoundTrip(n);
    }
  }

  /**
   * Issuing the next identifier: its key is not yet present, inserting it
   * grows the map by one, and the keys are still all issued.
   */
  lemma IssueNextKey(dirs: map<string, DirData>, currentId: int, data: DirData)
    requires KeysIssued(dirs, currentId)
    ensures FormatInt(currentId + 1) !in dirs
    ensures |dirs[FormatInt(currentId + 1) := data]| == |dirs| + 1
    ensures KeysIssued(dirs[FormatInt(currentId + 1) := data], currentId + 1)
  {
    var key := FormatInt(currentId + 1);
    FormatIntRoundTrip(currentId + 1);
    assert IssuedKey(key, currentId + 1);
  }

  class DataStore {
    var currentId: int64
    /** None stands for Go's nil map, which JSON `null` decodes to. */
    var trackedDirs: Option<map<string, DirData>>

    /** `GetDataStore`: no identifier issued and an empty, non-nil map. */
    constructor ()
      ensures currentId == 0 && trackedDirs == Some(map[])
      ensures KeysIssued(trackedDirs.value, currentId as int)
    {
      currentId := 0;
      trackedDirs := Some(map[]);
    }

    /**
     * `AddDir`: issues the next identifier and stores `data` under its
     * decimal rendering. No check on path or alias is made. Writing to a nil
     * map panics and `+= 1` would wrap at the int64 maximum, so both are
     * excluded.
     */
    method AddDir(data: DirData) returns (id: string)
      requires trackedDirs.Some?
      requires currentId < MaxInt64
      modifies this
      ensures currentId == old(currentId) + 1
      ensures id == FormatInt(currentId as int)
      ensures trackedDirs == Some(old(trackedDirs.value)[id := data])
      ensures KeysIssued(old(trackedDirs.value), old(currentId) as int) ==>
        && id !in old(trackedDirs.value)
        && |trackedDirs.value| == |old(trackedDirs.value)| + 1
        && KeysIssued(trackedDirs.value, currentId as int)
    {
      if KeysIssued(trackedDirs.value, currentId as int) {
        IssueNextKey(trackedDirs.value, currentId as int, data);
      }
      currentId := currentId + 1;
      id := FormatInt(currentId as int);
      trackedDirs := Some(trackedDirs.value[id := data]);
    }
  }

  /** A JSON key as the decoder met it: absent, `null`, or a value. */
  datatype JsonField<T> = Absent | Null | Present(value: T)

  /** What `json.Unmarshal` found at the top level of the registry file. */
  datatype StoreDocument = StoreDocument(
    currentId: JsonField<int64>,
    trackedDirs: JsonField<map<string, DirData>>)

  /**
   * `LoadDataStore`. `decode` stands for `json.Unmarshal` (None: the file
   * does not parse into the record). The decoded content is taken as it is:
   * a missing or null `current_id` keeps 0, a missing `tracked_dirs` keeps
   * the empty map, and `"tracked_dirs": null` leaves a nil map.
   */
  method LoadDataStore(w: World, decode: Bytes -> Option<StoreDocument>)
    returns (ds: DataStore?, err: Option<LoadError>)
    ensures ds == null <==> err.Some?
    ensures ds != null ==> fresh(ds)
    ensures
      match w.readFile(Config.ResolveDbPath(w.home, w.mmsyncConf))
      case FileMissing =>
        ds != null && ds.currentId == 0 && ds.trackedDirs == Some(map[])
      case ReadFailed(e) =>
        err == Some(ReadError(e))
      case FileData(data) =>
        match decode(data)
        case None => err == Some(DecodeError)
        case Some(doc) =>
          && ds != null
          && ds.currentId == (if doc.currentId.Present? then doc.currentId.value else 0)
          && ds.trackedDirs == (match doc.trackedDirs
                                case Absent => Some(map[])
                                case Null => None
                                case Present(m) => Some(m))
  {
    var dbPath := Config.ResolveDbPath(w.home, w.mmsyncConf);
    ds := new DataStore();

    match w.readFile(dbPath) {
      case FileMissing =>
        err := None;
      case ReadFailed(e) =>
        ds, err := null, Some(ReadError(e));
      case FileData(data) =>
        match decode(data) {
          case None =>
            ds, err := null, Some(DecodeError);
          case Some(doc) =>
            if doc.currentId.Present? {
              ds.currentId := doc.currentId.value;
            }
            match doc.trackedDirs {
              case Absent =>
              case Null => ds.trackedDirs := None;
              case Present(m) => ds.trackedDirs := Some(m);
            }
            err := None;
        }
    }
  }

  /** From a fresh store, two additions are keyed "1" and "2". */
  method TwoAddsFromFresh(a: DirData, b: DirData) returns (ds: DataStore, first: string, second: string)
    ensures first == "1" && second == "2"
    ensures ds.currentId == 2
    ensures ds.trackedDirs == Some(map["1" := a, "2" := b])
  {
    FormatIntExamples();
    ds := new DataStore();
    first := ds.AddDir(a);
    second := ds.AddDir(b);
  }

  /**
   * Loaded content is not validated: a file whose map already holds key "1"
   * while `current_id` is absent loads fine, and the next `AddDir` then
   * replaces that entry instead of adding one.
   */
  method UnvalidatedLoadOverwrites(a: DirData, b: DirData) returns (ds: DataStore?, id: string)
    ensures ds != null && id == "1"
    ensures ds.currentId == 1 && ds.trackedDirs == Some(map["1" := b])
  {
    FormatIntExamples();
    var w := World(NoHome, "", p => Missing, p => FileData([]));
    var decode := (bytes: Bytes) => Some(StoreDocument(Absent, Present(map["1" := a])));
    var err;
    ds, err := LoadDataStore(w, decode);
    id := ds.AddDir(b);
    assert map["1" := a]["1" := b] == map["1" := b];
  }
}
